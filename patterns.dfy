/**
 * The sign patterns of a cut triangle or tetrahedron whose vertex values are
 * clearly signed. For each pattern the cut pairs and the case table's pieces
 * of both volume domains are worked out, and the absolute orientations of
 * the pieces in reference coordinates are shown to add up to one: the pieces
 * of the two domains tile the element.
 */
module CutPatterns {
  import opened Vectors
  import opened Outcomes
  import opened SimplexCut
  import opened Measure
  import opened Decomposition
  import opened Quadrature
  import opened Tiling

  /** The other volume domain. */
  function Opposite(dt: DomainType): (o: DomainType)
    requires dt != IF
    ensures o != IF && o != dt
  {
    if dt == POS then NEG else POS
  }

  // ---------------------------------------------------------------------------
  // Evaluating the cut and the relevant vertices on three or four values

  /** The pair (i, j) when the sign test cuts the edge between positions i and j. */
  function PairIf(f: seq<real>, i: nat, j: nat): seq<(nat, nat)>
    requires i < j < |f|
  {
    if StrictCut(f[i], f[j]) then [(i, j)] else []
  }

  lemma {:induction false} StrictPairsOfThree(f: seq<real>)
    requires |f| == 3
    ensures CutPairsBy(StrictSignChange, f) == PairIf(f, 0, 1) + PairIf(f, 0, 2) + PairIf(f, 1, 2)
  {
    var S := StrictSignChange;
    assert RowPairs(S, f, 0, 2) == PairIf(f, 0, 1);
    assert RowPairs(S, f, 0, 3) == PairIf(f, 0, 1) + PairIf(f, 0, 2);
    assert RowPairs(S, f, 1, 3) == PairIf(f, 1, 2);
    assert PairsBefore(S, f, 1) == RowPairs(S, f, 0, 3);
    assert PairsBefore(S, f, 2) == PairsBefore(S, f, 1) + RowPairs(S, f, 1, 3);
    assert PairsBefore(S, f, 3) == PairsBefore(S, f, 2) + RowPairs(S, f, 2, 3);
  }

  /** A volume domain's entry is the volume table for its relevant vertices. */
  lemma DecomposeVolume(dt: DomainType, D: nat, f: seq<real>, sCut: Polytope, R: seq<nat>)
    requires dt != IF && D < |f| && RelevantUpTo(dt, f, D + 1) == R
    ensures Decompose(dt, D, f, sCut) == VolumeTable(D, sCut, R)
  {
  }

  /** The rows of the strict pair list of a tetrahedron. */
  lemma {:induction false} RowsOfFour(f: seq<real>)
    requires |f| == 4
    ensures RowPairs(StrictSignChange, f, 0, 4) == PairIf(f, 0, 1) + PairIf(f, 0, 2) + PairIf(f, 0, 3)
    ensures RowPairs(StrictSignChange, f, 1, 4) == PairIf(f, 1, 2) + PairIf(f, 1, 3)
    ensures RowPairs(StrictSignChange, f, 2, 4) == PairIf(f, 2, 3)
  {
    var S := StrictSignChange;
    assert RowPairs(S, f, 0, 2) == PairIf(f, 0, 1);
    assert RowPairs(S, f, 0, 3) == PairIf(f, 0, 1) + PairIf(f, 0, 2);
    assert RowPairs(S, f, 1, 3) == PairIf(f, 1, 2);
  }

  lemma {:induction false} StrictPairsOfFour(f: seq<real>)
    requires |f| == 4
    ensures CutPairsBy(StrictSignChange, f)
         == PairIf(f, 0, 1) + PairIf(f, 0, 2) + PairIf(f, 0, 3) + PairIf(f, 1, 2) + PairIf(f, 1, 3) + PairIf(f, 2, 3)
  {
    var S := StrictSignChange;
    RowsOfFour(f);
    assert PairsBefore(S, f, 1) == RowPairs(S, f, 0, 4);
    assert PairsBefore(S, f, 2) == PairsBefore(S, f, 1) + RowPairs(S, f, 1, 4);
    assert PairsBefore(S, f, 3) == PairsBefore(S, f, 2) + RowPairs(S, f, 2, 4);
    assert PairsBefore(S, f, 4) == PairsBefore(S, f, 3) + RowPairs(S, f, 3, 4);
  }

  /** The relevant base vertices among 0 .. n-1, built without a contract to carry. */
  function RelevantList(dt: DomainType, f: seq<real>, n: nat): seq<nat>
    requires n <= |f|
  {
    if n == 0 then [] else RelevantList(dt, f, n - 1) + (if IsRelevant(dt, f[n - 1]) then [n - 1] else [])
  }

  lemma {:induction false} RelevantListAgrees(dt: DomainType, f: seq<real>, n: nat)
    requires n <= |f|
    ensures RelevantUpTo(dt, f, n) == RelevantList(dt, f, n)
  {
    if n > 0 {
      RelevantListAgrees(dt, f, n - 1);
    }
  }

  lemma {:induction false} ListedAre0Of3(dt: DomainType, f: seq<real>)
    requires |f| == 3 && IsRelevant(dt, f[0]) && !IsRelevant(dt, f[1]) && !IsRelevant(dt, f[2])
    ensures RelevantList(dt, f, 3) == [0]
  {
    assert RelevantList(dt, f, 1) == [0];
    assert RelevantList(dt, f, 2) == [0];
  }

  lemma {:induction false} RelevantAre0Of3(dt: DomainType, f: seq<real>)
    requires |f| == 3 && IsRelevant(dt, f[0]) && !IsRelevant(dt, f[1]) && !IsRelevant(dt, f[2])
    ensures RelevantUpTo(dt, f, 3) == [0]
  {
    RelevantListAgrees(dt, f, 3);
    ListedAre0Of3(dt, f);
  }

  lemma {:induction false} ListedAre1Of3(dt: DomainType, f: seq<real>)
    requires |f| == 3 && !IsRelevant(dt, f[0]) && IsRelevant(dt, f[1]) && !IsRelevant(dt, f[2])
    ensures RelevantList(dt, f, 3) == [1]
  {
    assert RelevantList(dt, f, 1) == [];
    assert RelevantList(dt, f, 2) == [1];
  }

  lemma {:induction false} RelevantAre1Of3(dt: DomainType, f: seq<real>)
    requires |f| == 3 && !IsRelevant(dt, f[0]) && IsRelevant(dt, f[1]) && !IsRelevant(dt, f[2])
    ensures RelevantUpTo(dt, f, 3) == [1]
  {
    RelevantListAgrees(dt, f, 3);
    ListedAre1Of3(dt, f);
  }

  lemma {:induction false} ListedAre2Of3(dt: DomainType, f: seq<real>)
    requires |f| == 3 && !IsRelevant(dt, f[0]) && !IsRelevant(dt, f[1]) && IsRelevant(dt, f[2])
    ensures RelevantList(dt, f, 3) == [2]
  {
    assert RelevantList(dt, f, 1) == [];
    assert RelevantList(dt, f, 2) == [];
  }

  lemma {:induction false} RelevantAre2Of3(dt: DomainType, f: seq<real>)
    requires |f| == 3 && !IsRelevant(dt, f[0]) && !IsRelevant(dt, f[1]) && IsRelevant(dt, f[2])
    ensures RelevantUpTo(dt, f, 3) == [2]
  {
    RelevantListAgrees(dt, f, 3);
    ListedAre2Of3(dt, f);
  }

  lemma {:induction false} ListedAre01Of3(dt: DomainType, f: seq<real>)
    requires |f| == 3 && IsRelevant(dt, f[0]) && IsRelevant(dt, f[1]) && !IsRelevant(dt, f[2])
    ensures RelevantList(dt, f, 3) == [0, 1]
  {
    assert RelevantList(dt, f, 1) == [0];
    assert RelevantList(dt, f, 2) == [0, 1];
  }

  lemma {:induction false} RelevantAre01Of3(dt: DomainType, f: seq<real>)
    requires |f| == 3 && IsRelevant(dt, f[0]) && IsRelevant(dt, f[1]) && !IsRelevant(dt, f[2])
    ensures RelevantUpTo(dt, f, 3) == [0, 1]
  {
    RelevantListAgrees(dt, f, 3);
    ListedAre01Of3(dt, f);
  }

  lemma {:induction false} ListedAre02Of3(dt: DomainType, f: seq<real>)
    requires |f| == 3 && IsRelevant(dt, f[0]) && !IsRelevant(dt, f[1]) && IsRelevant(dt, f[2])
    ensures RelevantList(dt, f, 3) == [0, 2]
  {
    assert RelevantList(dt, f, 1) == [0];
    assert RelevantList(dt, f, 2) == [0];
  }

  lemma {:induction false} RelevantAre02Of3(dt: DomainType, f: seq<real>)
    requires |f| == 3 && IsRelevant(dt, f[0]) && !IsRelevant(dt, f[1]) && IsRelevant(dt, f[2])
    ensures RelevantUpTo(dt, f, 3) == [0, 2]
  {
    RelevantListAgrees(dt, f, 3);
    ListedAre02Of3(dt, f);
  }

  lemma {:induction false} ListedAre12Of3(dt: DomainType, f: seq<real>)
    requires |f| == 3 && !IsRelevant(dt, f[0]) && IsRelevant(dt, f[1]) && IsRelevant(dt, f[2])
    ensures RelevantList(dt, f, 3) == [1, 2]
  {
    assert RelevantList(dt, f, 1) == [];
    assert RelevantList(dt, f, 2) == [1];
  }

  lemma {:induction false} RelevantAre12Of3(dt: DomainType, f: seq<real>)
    requires |f| == 3 && !IsRelevant(dt, f[0]) && IsRelevant(dt, f[1]) && IsRelevant(dt, f[2])
    ensures RelevantUpTo(dt, f, 3) == [1, 2]
  {
    RelevantListAgrees(dt, f, 3);
    ListedAre12Of3(dt, f);
  }

  lemma {:induction false} ListedAre0Of4(dt: DomainType, f: seq<real>)
    requires |f| == 4 && IsRelevant(dt, f[0]) && !IsRelevant(dt, f[1]) && !IsRelevant(dt, f[2]) && !IsRelevant(dt, f[3])
    ensures RelevantList(dt, f, 4) == [0]
  {
    assert RelevantList(dt, f, 1) == [0];
    assert RelevantList(dt, f, 2) == [0];
    assert RelevantList(dt, f, 3) == [0];
  }

  lemma {:induction false} RelevantAre0Of4(dt: DomainType, f: seq<real>)
    requires |f| == 4 && IsRelevant(dt, f[0]) && !IsRelevant(dt, f[1]) && !IsRelevant(dt, f[2]) && !IsRelevant(dt, f[3])
    ensures RelevantUpTo(dt, f, 4) == [0]
  {
    RelevantListAgrees(dt, f, 4);
    ListedAre0Of4(dt, f);
  }

  lemma {:induction false} ListedAre1Of4(dt: DomainType, f: seq<real>)
    requires |f| == 4 && !IsRelevant(dt, f[0]) && IsRelevant(dt, f[1]) && !IsRelevant(dt, f[2]) && !IsRelevant(dt, f[3])
    ensures RelevantList(dt, f, 4) == [1]
  {
    assert RelevantList(dt, f, 1) == [];
    assert RelevantList(dt, f, 2) == [1];
    assert RelevantList(dt, f, 3) == [1];
  }

  lemma {:induction false} RelevantAre1Of4(dt: DomainType, f: seq<real>)
    requires |f| == 4 && !IsRelevant(dt, f[0]) && IsRelevant(dt, f[1]) && !IsRelevant(dt, f[2]) && !IsRelevant(dt, f[3])
    ensures RelevantUpTo(dt, f, 4) == [1]
  {
    RelevantListAgrees(dt, f, 4);
    ListedAre1Of4(dt, f);
  }

  lemma {:induction false} ListedAre2Of4(dt: DomainType, f: seq<real>)
    requires |f| == 4 && !IsRelevant(dt, f[0]) && !IsRelevant(dt, f[1]) && IsRelevant(dt, f[2]) && !IsRelevant(dt, f[3])
    ensures RelevantList(dt, f, 4) == [2]
  {
    assert RelevantList(dt, f, 1) == [];
    assert RelevantList(dt, f, 2) == [];
    assert RelevantList(dt, f, 3) == [2];
  }

  lemma {:induction false} RelevantAre2Of4(dt: DomainType, f: seq<real>)
    requires |f| == 4 && !IsRelevant(dt, f[0]) && !IsRelevant(dt, f[1]) && IsRelevant(dt, f[2]) && !IsRelevant(dt, f[3])
    ensures RelevantUpTo(dt, f, 4) == [2]
  {
    RelevantListAgrees(dt, f, 4);
    ListedAre2Of4(dt, f);
  }

  lemma {:induction false} ListedAre3Of4(dt: DomainType, f: seq<real>)
    requires |f| == 4 && !IsRelevant(dt, f[0]) && !IsRelevant(dt, f[1]) && !IsRelevant(dt, f[2]) && IsRelevant(dt, f[3])
    ensures RelevantList(dt, f, 4) == [3]
  {
    assert RelevantList(dt, f, 1) == [];
    assert RelevantList(dt, f, 2) == [];
    assert RelevantList(dt, f, 3) == [];
  }

  lemma {:induction false} RelevantAre3Of4(dt: DomainType, f: seq<real>)
    requires |f| == 4 && !IsRelevant(dt, f[0]) && !IsRelevant(dt, f[1]) && !IsRelevant(dt, f[2]) && IsRelevant(dt, f[3])
    ensures RelevantUpTo(dt, f, 4) == [3]
  {
    RelevantListAgrees(dt, f, 4);
    ListedAre3Of4(dt, f);
  }

  lemma {:induction false} ListedAre01Of4(dt: DomainType, f: seq<real>)
    requires |f| == 4 && IsRelevant(dt, f[0]) && IsRelevant(dt, f[1]) && !IsRelevant(dt, f[2]) && !IsRelevant(dt, f[3])
    ensures RelevantList(dt, f, 4) == [0, 1]
  {
    assert RelevantList(dt, f, 1) == [0];
    assert RelevantList(dt, f, 2) == [0, 1];
    assert RelevantList(dt, f, 3) == [0, 1];
  }

  lemma {:induction false} RelevantAre01Of4(dt: DomainType, f: seq<real>)
    requires |f| == 4 && IsRelevant(dt, f[0]) && IsRelevant(dt, f[1]) && !IsRelevant(dt, f[2]) && !IsRelevant(dt, f[3])
    ensures RelevantUpTo(dt, f, 4) == [0, 1]
  {
    RelevantListAgrees(dt, f, 4);
    ListedAre01Of4(dt, f);
  }

  lemma {:induction false} ListedAre02Of4(dt: DomainType, f: seq<real>)
    requires |f| == 4 && IsRelevant(dt, f[0]) && !IsRelevant(dt, f[1]) && IsRelevant(dt, f[2]) && !IsRelevant(dt, f[3])
    ensures RelevantList(dt, f, 4) == [0, 2]
  {
    assert RelevantList(dt, f, 1) == [0];
    assert RelevantList(dt, f, 2) == [0];
    assert RelevantList(dt, f, 3) == [0, 2];
  }

  lemma {:induction false} RelevantAre02Of4(dt: DomainType, f: seq<real>)
    requires |f| == 4 && IsRelevant(dt, f[0]) && !IsRelevant(dt, f[1]) && IsRelevant(dt, f[2]) && !IsRelevant(dt, f[3])
    ensures RelevantUpTo(dt, f, 4) == [0, 2]
  {
    RelevantListAgrees(dt, f, 4);
    ListedAre02Of4(dt, f);
  }

  lemma {:induction false} ListedAre03Of4(dt: DomainType, f: seq<real>)
    requires |f| == 4 && IsRelevant(dt, f[0]) && !IsRelevant(dt, f[1]) && !IsRelevant(dt, f[2]) && IsRelevant(dt, f[3])
    ensures RelevantList(dt, f, 4) == [0, 3]
  {
    assert RelevantList(dt, f, 1) == [0];
    assert RelevantList(dt, f, 2) == [0];
    assert RelevantList(dt, f, 3) == [0];
  }

  lemma {:induction false} RelevantAre03Of4(dt: DomainType, f: seq<real>)
    requires |f| == 4 && IsRelevant(dt, f[0]) && !IsRelevant(dt, f[1]) && !IsRelevant(dt, f[2]) && IsRelevant(dt, f[3])
    ensures RelevantUpTo(dt, f, 4) == [0, 3]
  {
    RelevantListAgrees(dt, f, 4);
    ListedAre03Of4(dt, f);
  }

  lemma {:induction false} ListedAre12Of4(dt: DomainType, f: seq<real>)
    requires |f| == 4 && !IsRelevant(dt, f[0]) && IsRelevant(dt, f[1]) && IsRelevant(dt, f[2]) && !IsRelevant(dt, f[3])
    ensures RelevantList(dt, f, 4) == [1, 2]
  {
    assert RelevantList(dt, f, 1) == [];
    assert RelevantList(dt, f, 2) == [1];
    assert RelevantList(dt, f, 3) == [1, 2];
  }

  lemma {:induction false} RelevantAre12Of4(dt: DomainType, f: seq<real>)
    requires |f| == 4 && !IsRelevant(dt, f[0]) && IsRelevant(dt, f[1]) && IsRelevant(dt, f[2]) && !IsRelevant(dt, f[3])
    ensures RelevantUpTo(dt, f, 4) == [1, 2]
  {
    RelevantListAgrees(dt, f, 4);
    ListedAre12Of4(dt, f);
  }

  lemma {:induction false} ListedAre13Of4(dt: DomainType, f: seq<real>)
    requires |f| == 4 && !IsRelevant(dt, f[0]) && IsRelevant(dt, f[1]) && !IsRelevant(dt, f[2]) && IsRelevant(dt, f[3])
    ensures RelevantList(dt, f, 4) == [1, 3]
  {
    assert RelevantList(dt, f, 1) == [];
    assert RelevantList(dt, f, 2) == [1];
    assert RelevantList(dt, f, 3) == [1];
  }

  lemma {:induction false} RelevantAre13Of4(dt: DomainType, f: seq<real>)
    requires |f| == 4 && !IsRelevant(dt, f[0]) && IsRelevant(dt, f[1]) && !IsRelevant(dt, f[2]) && IsRelevant(dt, f[3])
    ensures RelevantUpTo(dt, f, 4) == [1, 3]
  {
    RelevantListAgrees(dt, f, 4);
    ListedAre13Of4(dt, f);
  }

  lemma {:induction false} ListedAre23Of4(dt: DomainType, f: seq<real>)
    requires |f| == 4 && !IsRelevant(dt, f[0]) && !IsRelevant(dt, f[1]) && IsRelevant(dt, f[2]) && IsRelevant(dt, f[3])
    ensures RelevantList(dt, f, 4) == [2, 3]
  {
    assert RelevantList(dt, f, 1) == [];
    assert RelevantList(dt, f, 2) == [];
    assert RelevantList(dt, f, 3) == [2];
  }

  lemma {:induction false} RelevantAre23Of4(dt: DomainType, f: seq<real>)
    requires |f| == 4 && !IsRelevant(dt, f[0]) && !IsRelevant(dt, f[1]) && IsRelevant(dt, f[2]) && IsRelevant(dt, f[3])
    ensures RelevantUpTo(dt, f, 4) == [2, 3]
  {
    RelevantListAgrees(dt, f, 4);
    ListedAre23Of4(dt, f);
  }

  lemma {:induction false} ListedAre012Of4(dt: DomainType, f: seq<real>)
    requires |f| == 4 && IsRelevant(dt, f[0]) && IsRelevant(dt, f[1]) && IsRelevant(dt, f[2]) && !IsRelevant(dt, f[3])
    ensures RelevantList(dt, f, 4) == [0, 1, 2]
  {
    assert RelevantList(dt, f, 1) == [0];
    assert RelevantList(dt, f, 2) == [0, 1];
    assert RelevantList(dt, f, 3) == [0, 1, 2];
  }

  lemma {:induction false} RelevantAre012Of4(dt: DomainType, f: seq<real>)
    requires |f| == 4 && IsRelevant(dt, f[0]) && IsRelevant(dt, f[1]) && IsRelevant(dt, f[2]) && !IsRelevant(dt, f[3])
    ensures RelevantUpTo(dt, f, 4) == [0, 1, 2]
  {
    RelevantListAgrees(dt, f, 4);
    ListedAre012Of4(dt, f);
  }

  lemma {:induction false} ListedAre013Of4(dt: DomainType, f: seq<real>)
    requires |f| == 4 && IsRelevant(dt, f[0]) && IsRelevant(dt, f[1]) && !IsRelevant(dt, f[2]) && IsRelevant(dt, f[3])
    ensures RelevantList(dt, f, 4) == [0, 1, 3]
  {
    assert RelevantList(dt, f, 1) == [0];
    assert RelevantList(dt, f, 2) == [0, 1];
    assert RelevantList(dt, f, 3) == [0, 1];
  }

  lemma {:induction false} RelevantAre013Of4(dt: DomainType, f: seq<real>)
    requires |f| == 4 && IsRelevant(dt, f[0]) && IsRelevant(dt, f[1]) && !IsRelevant(dt, f[2]) && IsRelevant(dt, f[3])
    ensures RelevantUpTo(dt, f, 4) == [0, 1, 3]
  {
    RelevantListAgrees(dt, f, 4);
    ListedAre013Of4(dt, f);
  }

  lemma {:induction false} ListedAre023Of4(dt: DomainType, f: seq<real>)
    requires |f| == 4 && IsRelevant(dt, f[0]) && !IsRelevant(dt, f[1]) && IsRelevant(dt, f[2]) && IsRelevant(dt, f[3])
    ensures RelevantList(dt, f, 4) == [0, 2, 3]
  {
    assert RelevantList(dt, f, 1) == [0];
    assert RelevantList(dt, f, 2) == [0];
    assert RelevantList(dt, f, 3) == [0, 2];
  }

  lemma {:induction false} RelevantAre023Of4(dt: DomainType, f: seq<real>)
    requires |f| == 4 && IsRelevant(dt, f[0]) && !IsRelevant(dt, f[1]) && IsRelevant(dt, f[2]) && IsRelevant(dt, f[3])
    ensures RelevantUpTo(dt, f, 4) == [0, 2, 3]
  {
    RelevantListAgrees(dt, f, 4);
    ListedAre023Of4(dt, f);
  }

  lemma {:induction false} ListedAre123Of4(dt: DomainType, f: seq<real>)
    requires |f| == 4 && !IsRelevant(dt, f[0]) && IsRelevant(dt, f[1]) && IsRelevant(dt, f[2]) && IsRelevant(dt, f[3])
    ensures RelevantList(dt, f, 4) == [1, 2, 3]
  {
    assert RelevantList(dt, f, 1) == [];
    assert RelevantList(dt, f, 2) == [1];
    assert RelevantList(dt, f, 3) == [1, 2];
  }

  lemma {:induction false} RelevantAre123Of4(dt: DomainType, f: seq<real>)
    requires |f| == 4 && !IsRelevant(dt, f[0]) && IsRelevant(dt, f[1]) && IsRelevant(dt, f[2]) && IsRelevant(dt, f[3])
    ensures RelevantUpTo(dt, f, 4) == [1, 2, 3]
  {
    RelevantListAgrees(dt, f, 4);
    ListedAre123Of4(dt, f);
  }

  // ---------------------------------------------------------------------------
  // Arithmetic helpers

  lemma {:induction false} SumOfOne(s: seq<real>)
    requires |s| == 1
    ensures Sum(s) == s[0]
  {
    assert s[..0] == [];
  }

  lemma {:induction false} SumOfTwo(s: seq<real>)
    requires |s| == 2
    ensures Sum(s) == s[0] + s[1]
  {
    SumOfOne(s[..1]);
  }

  lemma {:induction false} SumOfThree(s: seq<real>)
    requires |s| == 3
    ensures Sum(s) == s[0] + s[1] + s[2]
  {
    SumOfTwo(s[..2]);
  }

  lemma PositiveTwoFactors(a: real, b: real, p: real)
    requires a > 0.0 && b > 0.0 && p == a * b
    ensures p > 0.0
  {
  }

  lemma PositiveThreeFactors(a: real, b: real, c: real, p: real)
    requires a > 0.0 && b > 0.0 && c > 0.0 && p == a * b * c
    ensures p > 0.0
  {
    PositiveTwoFactors(a, b, a * b);
    PositiveTwoFactors(a * b, c, p);
  }

  lemma PositiveFourFactors(a: real, b: real, c: real, d: real, p: real)
    requires a > 0.0 && b > 0.0 && c > 0.0 && d > 0.0 && p == a * b * c * d
    ensures p > 0.0
  {
    PositiveThreeFactors(a, b, c, a * b * c);
    PositiveTwoFactors(a * b * c, d, p);
  }

  lemma AbsOfPositive(r: real, p: real)
    requires r == p && p > 0.0
    ensures Abs(r) == p
  {
  }

  lemma AbsOfNegated(r: real, p: real)
    requires r == -p && p > 0.0
    ensures Abs(r) == p
  {
  }

  lemma OppositeSigns(a: real, b: real)
    requires (a > Tol && b < -Tol) || (a < -Tol && b > Tol)
    ensures a * b < 0.0
  {
    if a > Tol {
      PositiveTwoFactors(a, -b, a * -b);
    } else {
      PositiveTwoFactors(-a, b, -a * b);
    }
  }

  /** Between a clearly positive and a clearly negative value the cut parameter lies strictly inside the edge. */
  lemma CutParameterBounds(a: real, b: real)
    requires (a > Tol && b < -Tol) || (a < -Tol && b > Tol)
    ensures a != b && 0.0 < a / (a - b) < 1.0
  {
    OppositeSigns(a, b);
    CutParameterInsideEdge(a, b);
  }

  /** The p-th absolute orientation of triangles over X, read off their indices. */
  lemma {:induction false} TriangleOrientationAt(X: seq<Vec3>, pieces: seq<Polytope>, p: nat, a: nat, b: nat, c: nat, o: real)
    requires AllSimplexBelow(pieces, 2, |X|) && p < |pieces| && pieces[p].ia == [a, b, c]
    requires o == Orientations(X, pieces, 2)[p]
    ensures a < |X| && b < |X| && c < |X| && o == Abs(Orient2(X[a], X[b], X[c]))
  {
    assert SimplexBelow(pieces[p], 2, |X|);
  }

  /** The p-th absolute orientation of tetrahedra over X, read off their indices. */
  lemma {:induction false} TetOrientationAt(X: seq<Vec3>, pieces: seq<Polytope>, p: nat, a: nat, b: nat, c: nat, d: nat, o: real)
    requires AllSimplexBelow(pieces, 3, |X|) && p < |pieces| && pieces[p].ia == [a, b, c, d]
    requires o == Orientations(X, pieces, 3)[p]
    ensures a < |X| && b < |X| && c < |X| && d < |X| && o == Abs(Orient3(X[a], X[b], X[c], X[d]))
  {
    assert SimplexBelow(pieces[p], 3, |X|);
  }

  /** The k-th cut coordinate interpolates the reference points of the k-th pair. */
  lemma {:induction false} CutCoordinatesAt(V: seq<Vertex>, X: seq<Vec3>, ia: seq<nat>, pairs: seq<(nat, nat)>, k: nat)
    requires CuttablePairs(V, ia, pairs) && |X| == |V| && k < |pairs|
    ensures ia[pairs[k].0] < |X| && ia[pairs[k].1] < |X| && V[ia[pairs[k].0]].lset != V[ia[pairs[k].1]].lset
    ensures CutCoordinates(V, X, ia, pairs)[k]
         == CutPoint(X[ia[pairs[k].0]], X[ia[pairs[k].1]], V[ia[pairs[k].0]].lset, V[ia[pairs[k].1]].lset)
  {
    var n := |pairs| - 1;
    assert CuttablePairs(V, ia, pairs[..n]);
    if k < n {
      CutCoordinatesAt(V, X, ia, pairs[..n], k);
    }
  }

  /** The same, read off the coordinate list that appends the cut points to the base coordinates. */
  lemma {:induction false} CutCoordinatesIndex(V: seq<Vertex>, Xb: seq<Vec3>, ia: seq<nat>, pairs: seq<(nat, nat)>, X: seq<Vec3>, k: nat)
    requires CuttablePairs(V, ia, pairs) && |Xb| == |V| && k < |pairs|
    requires X == Xb + CutCoordinates(V, Xb, ia, pairs)
    ensures ia[pairs[k].0] < |Xb| && ia[pairs[k].1] < |Xb| && V[ia[pairs[k].0]].lset != V[ia[pairs[k].1]].lset
    ensures X[|Xb| + k] == CutPoint(Xb[ia[pairs[k].0]], Xb[ia[pairs[k].1]], V[ia[pairs[k].0]].lset, V[ia[pairs[k].1]].lset)
  {
    CutCoordinatesAt(V, Xb, ia, pairs, k);
  }


  /**
   * The pieces of the positive and of the negative domain, cut from the
   * reference simplex of dimension D, exist, index the coordinate list X,
   * and have absolute orientations that add up to one.
   */
  ghost predicate PiecesTile(f: seq<real>, D: nat, sCut: Polytope, X: seq<Vec3>) {
    && (D == 2 || D == 3) && D < |f|
    && Decompose(POS, D, f, sCut).Ok? && Decompose(NEG, D, f, sCut).Ok?
    && AllSimplexBelow(Decompose(POS, D, f, sCut).value, D, |X|)
    && AllSimplexBelow(Decompose(NEG, D, f, sCut).value, D, |X|)
    && Sum(Orientations(X, Decompose(POS, D, f, sCut).value, D))
       + Sum(Orientations(X, Decompose(NEG, D, f, sCut).value, D)) == 1.0
  }

  /** A domain and its opposite are the positive and the negative domain, in some order. */
  lemma SidesTile(f: seq<real>, D: nat, sCut: Polytope, X: seq<Vec3>, dt: DomainType)
    requires (D == 2 || D == 3) && D < |f| && dt != IF
    requires Decompose(dt, D, f, sCut).Ok? && Decompose(Opposite(dt), D, f, sCut).Ok?
    requires AllSimplexBelow(Decompose(dt, D, f, sCut).value, D, |X|)
    requires AllSimplexBelow(Decompose(Opposite(dt), D, f, sCut).value, D, |X|)
    requires Sum(Orientations(X, Decompose(dt, D, f, sCut).value, D))
             + Sum(Orientations(X, Decompose(Opposite(dt), D, f, sCut).value, D)) == 1.0
    ensures PiecesTile(f, D, sCut, X)
  {
  }

  /** The same, for tables that give the lists pos and neg. */
  lemma {:induction false} ListsTile(f: seq<real>, D: nat, sCut: Polytope, X: seq<Vec3>, dt: DomainType,
                                     pos: seq<Polytope>, neg: seq<Polytope>)
    requires (D == 2 || D == 3) && D < |f| && dt != IF
    requires Decompose(dt, D, f, sCut) == Ok(pos) && Decompose(Opposite(dt), D, f, sCut) == Ok(neg)
    requires AllSimplexBelow(pos, D, |X|) && AllSimplexBelow(neg, D, |X|)
    requires Sum(Orientations(X, pos, D)) + Sum(Orientations(X, neg, D)) == 1.0
    ensures PiecesTile(f, D, sCut, X)
  {
    SidesTile(f, D, sCut, X, dt);
  }

  /** Values of both signs put some vertex on the side opposite to any domain. */
  lemma SomeOpposite(f: seq<real>, dt: DomainType)
    requires dt != IF && HasPos(f) && HasNeg(f)
    ensures exists i :: 0 <= i < |f| && IsRelevant(Opposite(dt), f[i])
  {
    if dt == POS {
      var i :| 0 <= i < |f| && f[i] < -Tol;
      assert IsRelevant(NEG, f[i]);
    } else {
      var i :| 0 <= i < |f| && f[i] > Tol;
      assert IsRelevant(POS, f[i]);
    }
  }
  /** The cut pairs when vertex 0 alone lies in domain dt. */
  lemma {:induction false} TriangleApex0Cut(f: seq<real>, dt: DomainType)
    requires |f| == 3 && dt != IF && TestsAgree(f)
    requires IsRelevant(dt, f[0]) && IsRelevant(Opposite(dt), f[1]) && IsRelevant(Opposite(dt), f[2])
    ensures CutPairs(f) == [(0, 1), (0, 2)]
  {
    CutPairsAgree(f);
    StrictPairsOfThree(f);
    assert PairIf(f, 0, 1) == [(0, 1)];
    assert PairIf(f, 0, 2) == [(0, 2)];
    assert PairIf(f, 1, 2) == [];
  }

  /** The relevant vertices of both domains when vertex 0 alone lies in domain dt. */
  lemma {:induction false} TriangleApex0Relevant(f: seq<real>, dt: DomainType)
    requires |f| == 3 && dt != IF
    requires IsRelevant(dt, f[0]) && IsRelevant(Opposite(dt), f[1]) && IsRelevant(Opposite(dt), f[2])
    ensures RelevantUpTo(dt, f, 3) == [0] && RelevantUpTo(Opposite(dt), f, 3) == [1, 2]
  {
    RelevantAre0Of3(dt, f);
    RelevantAre12Of3(Opposite(dt), f);
  }

  lemma {:induction false} TriangleApex0InsideTable(store: VertexStore)
    ensures VolumeTable(2, Polytope(Range(3, 2), 1, store), [0]) == Ok([Polytope([3, 4, 0], 1, store)])
  {
    assert Range(3, 2) == [3, 4];
    assert [3, 4] + [0] == [3, 4, 0];
  }

  lemma {:induction false} TriangleApex0Inside(f: seq<real>, store: VertexStore, dt: DomainType)
    requires |f| == 3 && dt != IF
    requires IsRelevant(dt, f[0]) && IsRelevant(Opposite(dt), f[1]) && IsRelevant(Opposite(dt), f[2])
    ensures Decompose(dt, 2, f, Polytope(Range(3, 2), 1, store)) == Ok([Polytope([3, 4, 0], 1, store)])
  {
    TriangleApex0Relevant(f, dt);
    DecomposeVolume(dt, 2, f, Polytope(Range(3, 2), 1, store), [0]);
    TriangleApex0InsideTable(store);
  }

  lemma {:induction false} TriangleApex0OutsideTable(store: VertexStore)
    ensures VolumeTable(2, Polytope(Range(3, 2), 1, store), [1, 2]) == Ok([Polytope([1, 2, 4], 2, store), Polytope([3, 4, 1], 1, store)])
  {
    assert Range(3, 2) == [3, 4];
    assert [1, 2] + [4] == [1, 2, 4];
    assert [3, 4] + [1] == [3, 4, 1];
  }

  lemma {:induction false} TriangleApex0Outside(f: seq<real>, store: VertexStore, dt: DomainType)
    requires |f| == 3 && dt != IF
    requires IsRelevant(dt, f[0]) && IsRelevant(Opposite(dt), f[1]) && IsRelevant(Opposite(dt), f[2])
    ensures Decompose(Opposite(dt), 2, f, Polytope(Range(3, 2), 1, store)) == Ok([Polytope([1, 2, 4], 2, store), Polytope([3, 4, 1], 1, store)])
  {
    TriangleApex0Relevant(f, dt);
    DecomposeVolume(Opposite(dt), 2, f, Polytope(Range(3, 2), 1, store), [1, 2]);
    TriangleApex0OutsideTable(store);
  }

  /** The cut and the table entries when vertex 0 alone lies in domain dt. */
  lemma {:induction false} TriangleApex0Pieces(f: seq<real>, store: VertexStore, dt: DomainType)
    requires |f| == 3 && dt != IF && TestsAgree(f)
    requires IsRelevant(dt, f[0]) && IsRelevant(Opposite(dt), f[1]) && IsRelevant(Opposite(dt), f[2])
    ensures CutPairs(f) == [(0, 1), (0, 2)]
    ensures Decompose(dt, 2, f, Polytope(Range(3, 2), 1, store)) == Ok([Polytope([3, 4, 0], 1, store)])
    ensures Decompose(Opposite(dt), 2, f, Polytope(Range(3, 2), 1, store)) == Ok([Polytope([1, 2, 4], 2, store), Polytope([3, 4, 1], 1, store)])
  {
    TriangleApex0Cut(f, dt);
    TriangleApex0Inside(f, store, dt);
    TriangleApex0Outside(f, store, dt);
  }

  lemma TriangleApex0Orient0(t01: real, t02: real)
    ensures Orient2(Vec3(t01, 0.0, 0.0), Vec3(0.0, t02, 0.0), Zero) == -(t01 * t02)
  {
    assert Orient2(Vec3(t01, 0.0, 0.0), Vec3(0.0, t02, 0.0), Zero) == -t01 * t02 by {
      assert Sub(Zero, Vec3(t01, 0.0, 0.0)) == Vec3(-t01, 0.0, 0.0);
      assert Sub(Vec3(0.0, t02, 0.0), Vec3(t01, 0.0, 0.0)) == Vec3(-t01, t02, 0.0);
      assert Orient2(Vec3(t01, 0.0, 0.0), Vec3(0.0, t02, 0.0), Zero) == (-t01) * t02;
    }
  }

  lemma TriangleApex0Piece0(t01: real, t02: real, p: real, o: real)
    requires 0.0 < t01 < 1.0 && 0.0 < t02 < 1.0 && p == t01 * t02 && o == -p
    ensures p > 0.0 && Abs(o) == p
  {
    PositiveTwoFactors(t01, t02, p);
  }

  lemma TriangleApex0Orient1(t01: real, t02: real)
    ensures Orient2(E1, E2, Vec3(0.0, t02, 0.0)) == -(1.0 - t02)
  {
    assert Orient2(E1, E2, Vec3(0.0, t02, 0.0)) == -1.0 + t02 by {
      assert Sub(Vec3(0.0, t02, 0.0), E1) == Vec3(-1.0, t02, 0.0);
      assert Sub(E2, E1) == Vec3(-1.0, 1.0, 0.0);
      assert Orient2(E1, E2, Vec3(0.0, t02, 0.0)) == (-1.0) * 1.0 - t02 * (-1.0);
    }
  }

  lemma TriangleApex0Piece1(t01: real, t02: real, p: real, o: real)
    requires 0.0 < t01 < 1.0 && 0.0 < t02 < 1.0 && p == (1.0 - t02) && o == -p
    ensures p > 0.0 && Abs(o) == p
  {
  }

  lemma TriangleApex0Orient2(t01: real, t02: real)
    ensures Orient2(Vec3(t01, 0.0, 0.0), Vec3(0.0, t02, 0.0), E1) == (1.0 - t01) * t02
  {
    assert Orient2(Vec3(t01, 0.0, 0.0), Vec3(0.0, t02, 0.0), E1) == t02 - t01 * t02 by {
      assert Sub(E1, Vec3(t01, 0.0, 0.0)) == Vec3(1.0 - t01, 0.0, 0.0);
      assert Sub(Vec3(0.0, t02, 0.0), Vec3(t01, 0.0, 0.0)) == Vec3(-t01, t02, 0.0);
      assert Orient2(Vec3(t01, 0.0, 0.0), Vec3(0.0, t02, 0.0), E1) == (1.0 - t01) * t02;
    }
  }

  lemma TriangleApex0Piece2(t01: real, t02: real, p: real, o: real)
    requires 0.0 < t01 < 1.0 && 0.0 < t02 < 1.0 && p == (1.0 - t01) * t02 && o == p
    ensures p > 0.0 && Abs(o) == p
  {
    PositiveTwoFactors((1.0 - t01), t02, p);
  }

  lemma {:induction false} TriangleApex0Identity(t01: real, t02: real)
    ensures t01 * t02 + (1.0 - t02) + (1.0 - t01) * t02 == 1.0
  {
  }

  lemma {:induction false} TriangleApex0At0(t01: real, t02: real, o: real)
    requires 0.0 < t01 < 1.0 && 0.0 < t02 < 1.0 && o == Abs(Orient2(Vec3(t01, 0.0, 0.0), Vec3(0.0, t02, 0.0), Zero))
    ensures o == t01 * t02
  {
    TriangleApex0Orient0(t01, t02);
    TriangleApex0Piece0(t01, t02, t01 * t02, Orient2(Vec3(t01, 0.0, 0.0), Vec3(0.0, t02, 0.0), Zero));
  }

  lemma {:induction false} TriangleApex0At1(t01: real, t02: real, o: real)
    requires 0.0 < t01 < 1.0 && 0.0 < t02 < 1.0 && o == Abs(Orient2(E1, E2, Vec3(0.0, t02, 0.0)))
    ensures o == (1.0 - t02)
  {
    TriangleApex0Orient1(t01, t02);
    TriangleApex0Piece1(t01, t02, (1.0 - t02), Orient2(E1, E2, Vec3(0.0, t02, 0.0)));
  }

  lemma {:induction false} TriangleApex0At2(t01: real, t02: real, o: real)
    requires 0.0 < t01 < 1.0 && 0.0 < t02 < 1.0 && o == Abs(Orient2(Vec3(t01, 0.0, 0.0), Vec3(0.0, t02, 0.0), E1))
    ensures o == (1.0 - t01) * t02
  {
    TriangleApex0Orient2(t01, t02);
    TriangleApex0Piece2(t01, t02, (1.0 - t01) * t02, Orient2(Vec3(t01, 0.0, 0.0), Vec3(0.0, t02, 0.0), E1));
  }

  lemma {:induction false} TriangleApex0InsideSum(X: seq<Vec3>, store: VertexStore,
    x0: Vec3, x1: Vec3, x2: Vec3, x3: Vec3, x4: Vec3,
    v0: real)
    requires |X| == 5 && X[0] == x0 && X[1] == x1 && X[2] == x2 && X[3] == x3 && X[4] == x4
    requires v0 == Abs(Orient2(x3, x4, x0))
    ensures AllSimplexBelow([Polytope([3, 4, 0], 1, store)], 2, 5)
    ensures Sum(Orientations(X, [Polytope([3, 4, 0], 1, store)], 2)) == v0
  {
    var pieces := [Polytope([3, 4, 0], 1, store)];
    assert AllSimplexBelow(pieces, 2, |X|);
    var os := Orientations(X, pieces, 2);
    assert pieces[0].ia == [3, 4, 0];
    TriangleOrientationAt(X, pieces, 0, 3, 4, 0, os[0]);
    SumOfOne(os);
  }

  lemma {:induction false} TriangleApex0OutsideSum(X: seq<Vec3>, store: VertexStore,
    x0: Vec3, x1: Vec3, x2: Vec3, x3: Vec3, x4: Vec3,
    v1: real, v2: real)
    requires |X| == 5 && X[0] == x0 && X[1] == x1 && X[2] == x2 && X[3] == x3 && X[4] == x4
    requires v1 == Abs(Orient2(x1, x2, x4))
    requires v2 == Abs(Orient2(x3, x4, x1))
    ensures AllSimplexBelow([Polytope([1, 2, 4], 2, store), Polytope([3, 4, 1], 1, store)], 2, 5)
    ensures Sum(Orientations(X, [Polytope([1, 2, 4], 2, store), Polytope([3, 4, 1], 1, store)], 2)) == v1 + v2
  {
    var pieces := [Polytope([1, 2, 4], 2, store), Polytope([3, 4, 1], 1, store)];
    assert AllSimplexBelow(pieces, 2, |X|);
    var os := Orientations(X, pieces, 2);
    assert pieces[0].ia == [1, 2, 4];
    TriangleOrientationAt(X, pieces, 0, 1, 2, 4, os[0]);
    assert pieces[1].ia == [3, 4, 1];
    TriangleOrientationAt(X, pieces, 1, 3, 4, 1, os[1]);
    SumOfTwo(os);
  }

  lemma {:induction false} TriangleApex0Total(t01: real, t02: real, v0: real, v1: real, v2: real)
    requires 0.0 < t01 < 1.0 && 0.0 < t02 < 1.0
    requires v0 == Abs(Orient2(Vec3(t01, 0.0, 0.0), Vec3(0.0, t02, 0.0), Zero))
    requires v1 == Abs(Orient2(E1, E2, Vec3(0.0, t02, 0.0)))
    requires v2 == Abs(Orient2(Vec3(t01, 0.0, 0.0), Vec3(0.0, t02, 0.0), E1))
    ensures v0 + v1 + v2 == 1.0
  {
    TriangleApex0At0(t01, t02, v0);
    TriangleApex0At1(t01, t02, v1);
    TriangleApex0At2(t01, t02, v2);
    TriangleApex0Identity(t01, t02);
  }

  lemma {:induction false} TriangleApex0Orientations(x0: Vec3, x1: Vec3, x2: Vec3, x3: Vec3, x4: Vec3, t01: real, t02: real)
    requires 0.0 < t01 < 1.0 && 0.0 < t02 < 1.0
    requires x0 == Zero && x1 == E1 && x2 == E2 && x3 == Vec3(t01, 0.0, 0.0) && x4 == Vec3(0.0, t02, 0.0)
    ensures Abs(Orient2(x3, x4, x0)) + Abs(Orient2(x1, x2, x4)) + Abs(Orient2(x3, x4, x1)) == 1.0
  {
    TriangleApex0Total(t01, t02, Abs(Orient2(x3, x4, x0)), Abs(Orient2(x1, x2, x4)), Abs(Orient2(x3, x4, x1)));
  }

  lemma {:induction false} TriangleApex0Lerp0(t01: real)
    ensures Add(Zero, Scale(t01, Sub(E1, Zero))) == Vec3(t01, 0.0, 0.0)
  {
  }

  lemma {:induction false} TriangleApex0Lerp1(t02: real)
    ensures Add(Zero, Scale(t02, Sub(E2, Zero))) == Vec3(0.0, t02, 0.0)
  {
  }

  lemma {:induction false} TriangleApex0Point0(f: seq<real>, V: seq<Vertex>, X: seq<Vec3>)
    requires |f| == 3 && |V| == 3 && V[0].lset == f[0] && V[1].lset == f[1]
    requires CuttablePairs(V, Range(0, 3), [(0, 1), (0, 2)])
    requires X == BaseCoordinates(3) + CutCoordinates(V, BaseCoordinates(3), Range(0, 3), [(0, 1), (0, 2)])
    ensures f[0] != f[1] && X[3] == CutPoint(Zero, E1, f[0], f[1])
  {
    CutCoordinatesIndex(V, BaseCoordinates(3), Range(0, 3), [(0, 1), (0, 2)], X, 0);
    assert Range(0, 3)[0] == 0 && Range(0, 3)[1] == 1;
  }

  lemma {:induction false} TriangleApex0Value0(a: real, b: real, x: Vec3)
    requires a != b && x == CutPoint(Zero, E1, a, b)
    ensures x == Vec3(a / (a - b), 0.0, 0.0)
  {
    TriangleApex0Lerp0(a / (a - b));
  }

  lemma {:induction false} TriangleApex0Point1(f: seq<real>, V: seq<Vertex>, X: seq<Vec3>)
    requires |f| == 3 && |V| == 3 && V[0].lset == f[0] && V[2].lset == f[2]
    requires CuttablePairs(V, Range(0, 3), [(0, 1), (0, 2)])
    requires X == BaseCoordinates(3) + CutCoordinates(V, BaseCoordinates(3), Range(0, 3), [(0, 1), (0, 2)])
    ensures f[0] != f[2] && X[4] == CutPoint(Zero, E2, f[0], f[2])
  {
    CutCoordinatesIndex(V, BaseCoordinates(3), Range(0, 3), [(0, 1), (0, 2)], X, 1);
    assert Range(0, 3)[0] == 0 && Range(0, 3)[2] == 2;
  }

  lemma {:induction false} TriangleApex0Value1(a: real, b: real, x: Vec3)
    requires a != b && x == CutPoint(Zero, E2, a, b)
    ensures x == Vec3(0.0, a / (a - b), 0.0)
  {
    TriangleApex0Lerp1(a / (a - b));
  }

  lemma {:induction false} TriangleApex0Coordinates(f: seq<real>, V: seq<Vertex>, dt: DomainType, X: seq<Vec3>)
    returns (t01: real, t02: real, x0: Vec3, x1: Vec3, x2: Vec3, x3: Vec3, x4: Vec3)
    requires |f| == 3 && |V| == 3 && forall i :: 0 <= i < 3 ==> V[i].lset == f[i]
    requires dt != IF && IsRelevant(dt, f[0]) && IsRelevant(Opposite(dt), f[1]) && IsRelevant(Opposite(dt), f[2])
    requires CuttablePairs(V, Range(0, 3), [(0, 1), (0, 2)])
    requires X == BaseCoordinates(3) + CutCoordinates(V, BaseCoordinates(3), Range(0, 3), [(0, 1), (0, 2)])
    ensures |X| == 5 && X[0] == x0 && X[1] == x1 && X[2] == x2 && X[3] == x3 && X[4] == x4
    ensures 0.0 < t01 < 1.0 && 0.0 < t02 < 1.0
    ensures x0 == Zero && x1 == E1 && x2 == E2 && x3 == Vec3(t01, 0.0, 0.0) && x4 == Vec3(0.0, t02, 0.0)
  {
    TriangleApex0Point0(f, V, X);
    TriangleApex0Value0(f[0], f[1], X[3]);
    CutParameterBounds(f[0], f[1]);
    TriangleApex0Point1(f, V, X);
    TriangleApex0Value1(f[0], f[2], X[4]);
    CutParameterBounds(f[0], f[2]);
    t01 := f[0] / (f[0] - f[1]);
    t02 := f[0] / (f[0] - f[2]);
    x0, x1, x2, x3, x4 := Zero, E1, E2, Vec3(t01, 0.0, 0.0), Vec3(0.0, t02, 0.0);
  }

  /** The measures of both domains' pieces add up to one when vertex 0 alone lies in domain dt. */
  lemma {:induction false} TriangleApex0Measure(f: seq<real>, V: seq<Vertex>, store: VertexStore, dt: DomainType, X: seq<Vec3>)
    requires |f| == 3 && |V| == 3 && forall i :: 0 <= i < 3 ==> V[i].lset == f[i]
    requires dt != IF && TestsAgree(f)
    requires IsRelevant(dt, f[0]) && IsRelevant(Opposite(dt), f[1]) && IsRelevant(Opposite(dt), f[2])
    requires CuttablePairs(V, Range(0, 3), CutPairs(f))
    requires X == BaseCoordinates(3) + CutCoordinates(V, BaseCoordinates(3), Range(0, 3), CutPairs(f))
    ensures |X| == 5
    ensures AllSimplexBelow([Polytope([3, 4, 0], 1, store)], 2, 5) && AllSimplexBelow([Polytope([1, 2, 4], 2, store), Polytope([3, 4, 1], 1, store)], 2, 5)
    ensures Sum(Orientations(X, [Polytope([3, 4, 0], 1, store)], 2)) + Sum(Orientations(X, [Polytope([1, 2, 4], 2, store), Polytope([3, 4, 1], 1, store)], 2)) == 1.0
  {
    TriangleApex0Cut(f, dt);
    var t01, t02, x0, x1, x2, x3, x4 := TriangleApex0Coordinates(f, V, dt, X);
    TriangleApex0Orientations(x0, x1, x2, x3, x4, t01, t02);
    TriangleApex0InsideSum(X, store, x0, x1, x2, x3, x4,
      Abs(Orient2(x3, x4, x0)));
    TriangleApex0OutsideSum(X, store, x0, x1, x2, x3, x4,
      Abs(Orient2(x1, x2, x4)),
      Abs(Orient2(x3, x4, x1)));
  }

  /**
   * When vertex 0 alone lies in domain dt, the table's pieces of both
   * domains have absolute orientations that add up to one.
   */
  lemma {:induction false} TriangleApex0(f: seq<real>, V: seq<Vertex>, store: VertexStore, dt: DomainType, X: seq<Vec3>)
    requires |f| == 3 && |V| == 3 && forall i :: 0 <= i < 3 ==> V[i].lset == f[i]
    requires dt != IF && TestsAgree(f)
    requires IsRelevant(dt, f[0]) && IsRelevant(Opposite(dt), f[1]) && IsRelevant(Opposite(dt), f[2])
    requires CuttablePairs(V, Range(0, 3), CutPairs(f))
    requires X == BaseCoordinates(3) + CutCoordinates(V, BaseCoordinates(3), Range(0, 3), CutPairs(f))
    ensures CutPairs(f) == [(0, 1), (0, 2)] && |X| == 5
    ensures Decompose(dt, 2, f, Polytope(Range(3, 2), 1, store)) == Ok([Polytope([3, 4, 0], 1, store)])
    ensures Decompose(Opposite(dt), 2, f, Polytope(Range(3, 2), 1, store)) == Ok([Polytope([1, 2, 4], 2, store), Polytope([3, 4, 1], 1, store)])
    ensures AllSimplexBelow([Polytope([3, 4, 0], 1, store)], 2, 5) && AllSimplexBelow([Polytope([1, 2, 4], 2, store), Polytope([3, 4, 1], 1, store)], 2, 5)
    ensures Sum(Orientations(X, [Polytope([3, 4, 0], 1, store)], 2)) + Sum(Orientations(X, [Polytope([1, 2, 4], 2, store), Polytope([3, 4, 1], 1, store)], 2)) == 1.0
  {
    TriangleApex0Pieces(f, store, dt);
    TriangleApex0Measure(f, V, store, dt, X);
  }

  /** The same, stated for the positive and the negative domain. */
  lemma {:induction false} TriangleApex0Tiles(f: seq<real>, V: seq<Vertex>, store: VertexStore, dt: DomainType, X: seq<Vec3>)
    requires |f| == 3 && |V| == 3 && forall i :: 0 <= i < 3 ==> V[i].lset == f[i]
    requires dt != IF && TestsAgree(f)
    requires IsRelevant(dt, f[0]) && IsRelevant(Opposite(dt), f[1]) && IsRelevant(Opposite(dt), f[2])
    requires CuttablePairs(V, Range(0, 3), CutPairs(f))
    requires X == BaseCoordinates(3) + CutCoordinates(V, BaseCoordinates(3), Range(0, 3), CutPairs(f))
    ensures PiecesTile(f, 2, Polytope(Range(3, |CutPairs(f)|), 1, store), X)
  {
    TriangleApex0Pieces(f, store, dt);
    TriangleApex0Measure(f, V, store, dt, X);
    ListsTile(f, 2, Polytope(Range(3, 2), 1, store), X, dt, [Polytope([3, 4, 0], 1, store)], [Polytope([1, 2, 4], 2, store), Polytope([3, 4, 1], 1, store)]);
  }

  /** The cut pairs when vertex 1 alone lies in domain dt. */
  lemma {:induction false} TriangleApex1Cut(f: seq<real>, dt: DomainType)
    requires |f| == 3 && dt != IF && TestsAgree(f)
    requires IsRelevant(dt, f[1]) && IsRelevant(Opposite(dt), f[0]) && IsRelevant(Opposite(dt), f[2])
    ensures CutPairs(f) == [(0, 1), (1, 2)]
  {
    CutPairsAgree(f);
    StrictPairsOfThree(f);
    assert PairIf(f, 0, 1) == [(0, 1)];
    assert PairIf(f, 0, 2) == [];
    assert PairIf(f, 1, 2) == [(1, 2)];
  }

  /** The relevant vertices of both domains when vertex 1 alone lies in domain dt. */
  lemma {:induction false} TriangleApex1Relevant(f: seq<real>, dt: DomainType)
    requires |f| == 3 && dt != IF
    requires IsRelevant(dt, f[1]) && IsRelevant(Opposite(dt), f[0]) && IsRelevant(Opposite(dt), f[2])
    ensures RelevantUpTo(dt, f, 3) == [1] && RelevantUpTo(Opposite(dt), f, 3) == [0, 2]
  {
    RelevantAre1Of3(dt, f);
    RelevantAre02Of3(Opposite(dt), f);
  }

  lemma {:induction false} TriangleApex1InsideTable(store: VertexStore)
    ensures VolumeTable(2, Polytope(Range(3, 2), 1, store), [1]) == Ok([Polytope([3, 4, 1], 1, store)])
  {
    assert Range(3, 2) == [3, 4];
    assert [3, 4] + [1] == [3, 4, 1];
  }

  lemma {:induction false} TriangleApex1Inside(f: seq<real>, store: VertexStore, dt: DomainType)
    requires |f| == 3 && dt != IF
    requires IsRelevant(dt, f[1]) && IsRelevant(Opposite(dt), f[0]) && IsRelevant(Opposite(dt), f[2])
    ensures Decompose(dt, 2, f, Polytope(Range(3, 2), 1, store)) == Ok([Polytope([3, 4, 1], 1, store)])
  {
    TriangleApex1Relevant(f, dt);
    DecomposeVolume(dt, 2, f, Polytope(Range(3, 2), 1, store), [1]);
    TriangleApex1InsideTable(store);
  }

  lemma {:induction false} TriangleApex1OutsideTable(store: VertexStore)
    ensures VolumeTable(2, Polytope(Range(3, 2), 1, store), [0, 2]) == Ok([Polytope([0, 2, 4], 2, store), Polytope([3, 4, 0], 1, store)])
  {
    assert Range(3, 2) == [3, 4];
    assert [0, 2] + [4] == [0, 2, 4];
    assert [3, 4] + [0] == [3, 4, 0];
  }

  lemma {:induction false} TriangleApex1Outside(f: seq<real>, store: VertexStore, dt: DomainType)
    requires |f| == 3 && dt != IF
    requires IsRelevant(dt, f[1]) && IsRelevant(Opposite(dt), f[0]) && IsRelevant(Opposite(dt), f[2])
    ensures Decompose(Opposite(dt), 2, f, Polytope(Range(3, 2), 1, store)) == Ok([Polytope([0, 2, 4], 2, store), Polytope([3, 4, 0], 1, store)])
  {
    TriangleApex1Relevant(f, dt);
    DecomposeVolume(Opposite(dt), 2, f, Polytope(Range(3, 2), 1, store), [0, 2]);
    TriangleApex1OutsideTable(store);
  }

  /** The cut and the table entries when vertex 1 alone lies in domain dt. */
  lemma {:induction false} TriangleApex1Pieces(f: seq<real>, store: VertexStore, dt: DomainType)
    requires |f| == 3 && dt != IF && TestsAgree(f)
    requires IsRelevant(dt, f[1]) && IsRelevant(Opposite(dt), f[0]) && IsRelevant(Opposite(dt), f[2])
    ensures CutPairs(f) == [(0, 1), (1, 2)]
    ensures Decompose(dt, 2, f, Polytope(Range(3, 2), 1, store)) == Ok([Polytope([3, 4, 1], 1, store)])
    ensures Decompose(Opposite(dt), 2, f, Polytope(Range(3, 2), 1, store)) == Ok([Polytope([0, 2, 4], 2, store), Polytope([3, 4, 0], 1, store)])
  {
    TriangleApex1Cut(f, dt);
    TriangleApex1Inside(f, store, dt);
    TriangleApex1Outside(f, store, dt);
  }

  lemma TriangleApex1Orient0(t01: real, t12: real)
    ensures Orient2(Vec3(t01, 0.0, 0.0), Vec3(1.0 - t12, t12, 0.0), E1) == (1.0 - t01) * t12
  {
    assert Orient2(Vec3(t01, 0.0, 0.0), Vec3(1.0 - t12, t12, 0.0), E1) == t12 - t01 * t12 by {
      assert Sub(E1, Vec3(t01, 0.0, 0.0)) == Vec3(1.0 - t01, 0.0, 0.0);
      assert Sub(Vec3(1.0 - t12, t12, 0.0), Vec3(t01, 0.0, 0.0)) == Vec3(1.0 - t01 - t12, t12, 0.0);
      assert Orient2(Vec3(t01, 0.0, 0.0), Vec3(1.0 - t12, t12, 0.0), E1) == (1.0 - t01) * t12;
    }
  }

  lemma TriangleApex1Piece0(t01: real, t12: real, p: real, o: real)
    requires 0.0 < t01 < 1.0 && 0.0 < t12 < 1.0 && p == (1.0 - t01) * t12 && o == p
    ensures p > 0.0 && Abs(o) == p
  {
    PositiveTwoFactors((1.0 - t01), t12, p);
  }

  lemma TriangleApex1Orient1(t01: real, t12: real)
    ensures Orient2(Zero, E2, Vec3(1.0 - t12, t12, 0.0)) == (1.0 - t12)
  {
    assert Orient2(Zero, E2, Vec3(1.0 - t12, t12, 0.0)) == 1.0 - t12 by {
      assert Sub(Vec3(1.0 - t12, t12, 0.0), Zero) == Vec3(1.0 - t12, t12, 0.0);
      assert Sub(E2, Zero) == Vec3(0.0, 1.0, 0.0);
      assert Orient2(Zero, E2, Vec3(1.0 - t12, t12, 0.0)) == (1.0 - t12) * 1.0;
    }
  }

  lemma TriangleApex1Piece1(t01: real, t12: real, p: real, o: real)
    requires 0.0 < t01 < 1.0 && 0.0 < t12 < 1.0 && p == (1.0 - t12) && o == p
    ensures p > 0.0 && Abs(o) == p
  {
  }

  lemma TriangleApex1Orient2(t01: real, t12: real)
    ensures Orient2(Vec3(t01, 0.0, 0.0), Vec3(1.0 - t12, t12, 0.0), Zero) == -(t01 * t12)
  {
    assert Orient2(Vec3(t01, 0.0, 0.0), Vec3(1.0 - t12, t12, 0.0), Zero) == -t01 * t12 by {
      assert Sub(Zero, Vec3(t01, 0.0, 0.0)) == Vec3(-t01, 0.0, 0.0);
      assert Sub(Vec3(1.0 - t12, t12, 0.0), Vec3(t01, 0.0, 0.0)) == Vec3(1.0 - t01 - t12, t12, 0.0);
      assert Orient2(Vec3(t01, 0.0, 0.0), Vec3(1.0 - t12, t12, 0.0), Zero) == (-t01) * t12;
    }
  }

  lemma TriangleApex1Piece2(t01: real, t12: real, p: real, o: real)
    requires 0.0 < t01 < 1.0 && 0.0 < t12 < 1.0 && p == t01 * t12 && o == -p
    ensures p > 0.0 && Abs(o) == p
  {
    PositiveTwoFactors(t01, t12, p);
  }

  lemma {:induction false} TriangleApex1Identity(t01: real, t12: real)
    ensures (1.0 - t01) * t12 + (1.0 - t12) + t01 * t12 == 1.0
  {
  }

  lemma {:induction false} TriangleApex1At0(t01: real, t12: real, o: real)
    requires 0.0 < t01 < 1.0 && 0.0 < t12 < 1.0 && o == Abs(Orient2(Vec3(t01, 0.0, 0.0), Vec3(1.0 - t12, t12, 0.0), E1))
    ensures o == (1.0 - t01) * t12
  {
    TriangleApex1Orient0(t01, t12);
    TriangleApex1Piece0(t01, t12, (1.0 - t01) * t12, Orient2(Vec3(t01, 0.0, 0.0), Vec3(1.0 - t12, t12, 0.0), E1));
  }

  lemma {:induction false} TriangleApex1At1(t01: real, t12: real, o: real)
    requires 0.0 < t01 < 1.0 && 0.0 < t12 < 1.0 && o == Abs(Orient2(Zero, E2, Vec3(1.0 - t12, t12, 0.0)))
    ensures o == (1.0 - t12)
  {
    TriangleApex1Orient1(t01, t12);
    TriangleApex1Piece1(t01, t12, (1.0 - t12), Orient2(Zero, E2, Vec3(1.0 - t12, t12, 0.0)));
  }

  lemma {:induction false} TriangleApex1At2(t01: real, t12: real, o: real)
    requires 0.0 < t01 < 1.0 && 0.0 < t12 < 1.0 && o == Abs(Orient2(Vec3(t01, 0.0, 0.0), Vec3(1.0 - t12, t12, 0.0), Zero))
    ensures o == t01 * t12
  {
    TriangleApex1Orient2(t01, t12);
    TriangleApex1Piece2(t01, t12, t01 * t12, Orient2(Vec3(t01, 0.0, 0.0), Vec3(1.0 - t12, t12, 0.0), Zero));
  }

  lemma {:induction false} TriangleApex1InsideSum(X: seq<Vec3>, store: VertexStore,
    x0: Vec3, x1: Vec3, x2: Vec3, x3: Vec3, x4: Vec3,
    v0: real)
    requires |X| == 5 && X[0] == x0 && X[1] == x1 && X[2] == x2 && X[3] == x3 && X[4] == x4
    requires v0 == Abs(Orient2(x3, x4, x1))
    ensures AllSimplexBelow([Polytope([3, 4, 1], 1, store)], 2, 5)
    ensures Sum(Orientations(X, [Polytope([3, 4, 1], 1, store)], 2)) == v0
  {
    var pieces := [Polytope([3, 4, 1], 1, store)];
    assert AllSimplexBelow(pieces, 2, |X|);
    var os := Orientations(X, pieces, 2);
    assert pieces[0].ia == [3, 4, 1];
    TriangleOrientationAt(X, pieces, 0, 3, 4, 1, os[0]);
    SumOfOne(os);
  }

  lemma {:induction false} TriangleApex1OutsideSum(X: seq<Vec3>, store: VertexStore,
    x0: Vec3, x1: Vec3, x2: Vec3, x3: Vec3, x4: Vec3,
    v1: real, v2: real)
    requires |X| == 5 && X[0] == x0 && X[1] == x1 && X[2] == x2 && X[3] == x3 && X[4] == x4
    requires v1 == Abs(Orient2(x0, x2, x4))
    requires v2 == Abs(Orient2(x3, x4, x0))
    ensures AllSimplexBelow([Polytope([0, 2, 4], 2, store), Polytope([3, 4, 0], 1, store)], 2, 5)
    ensures Sum(Orientations(X, [Polytope([0, 2, 4], 2, store), Polytope([3, 4, 0], 1, store)], 2)) == v1 + v2
  {
    var pieces := [Polytope([0, 2, 4], 2, store), Polytope([3, 4, 0], 1, store)];
    assert AllSimplexBelow(pieces, 2, |X|);
    var os := Orientations(X, pieces, 2);
    assert pieces[0].ia == [0, 2, 4];
    TriangleOrientationAt(X, pieces, 0, 0, 2, 4, os[0]);
    assert pieces[1].ia == [3, 4, 0];
    TriangleOrientationAt(X, pieces, 1, 3, 4, 0, os[1]);
    SumOfTwo(os);
  }

  lemma {:induction false} TriangleApex1Total(t01: real, t12: real, v0: real, v1: real, v2: real)
    requires 0.0 < t01 < 1.0 && 0.0 < t12 < 1.0
    requires v0 == Abs(Orient2(Vec3(t01, 0.0, 0.0), Vec3(1.0 - t12, t12, 0.0), E1))
    requires v1 == Abs(Orient2(Zero, E2, Vec3(1.0 - t12, t12, 0.0)))
    requires v2 == Abs(Orient2(Vec3(t01, 0.0, 0.0), Vec3(1.0 - t12, t12, 0.0), Zero))
    ensures v0 + v1 + v2 == 1.0
  {
    TriangleApex1At0(t01, t12, v0);
    TriangleApex1At1(t01, t12, v1);
    TriangleApex1At2(t01, t12, v2);
    TriangleApex1Identity(t01, t12);
  }

  lemma {:induction false} TriangleApex1Orientations(x0: Vec3, x1: Vec3, x2: Vec3, x3: Vec3, x4: Vec3, t01: real, t12: real)
    requires 0.0 < t01 < 1.0 && 0.0 < t12 < 1.0
    requires x0 == Zero && x1 == E1 && x2 == E2 && x3 == Vec3(t01, 0.0, 0.0) && x4 == Vec3(1.0 - t12, t12, 0.0)
    ensures Abs(Orient2(x3, x4, x1)) + Abs(Orient2(x0, x2, x4)) + Abs(Orient2(x3, x4, x0)) == 1.0
  {
    TriangleApex1Total(t01, t12, Abs(Orient2(x3, x4, x1)), Abs(Orient2(x0, x2, x4)), Abs(Orient2(x3, x4, x0)));
  }

  lemma {:induction false} TriangleApex1Lerp0(t01: real)
    ensures Add(Zero, Scale(t01, Sub(E1, Zero))) == Vec3(t01, 0.0, 0.0)
  {
  }

  lemma {:induction false} TriangleApex1Lerp1(t12: real)
    ensures Add(E1, Scale(t12, Sub(E2, E1))) == Vec3(1.0 - t12, t12, 0.0)
  {
  }

  lemma {:induction false} TriangleApex1Point0(f: seq<real>, V: seq<Vertex>, X: seq<Vec3>)
    requires |f| == 3 && |V| == 3 && V[0].lset == f[0] && V[1].lset == f[1]
    requires CuttablePairs(V, Range(0, 3), [(0, 1), (1, 2)])
    requires X == BaseCoordinates(3) + CutCoordinates(V, BaseCoordinates(3), Range(0, 3), [(0, 1), (1, 2)])
    ensures f[0] != f[1] && X[3] == CutPoint(Zero, E1, f[0], f[1])
  {
    CutCoordinatesIndex(V, BaseCoordinates(3), Range(0, 3), [(0, 1), (1, 2)], X, 0);
    assert Range(0, 3)[0] == 0 && Range(0, 3)[1] == 1;
  }

  lemma {:induction false} TriangleApex1Value0(a: real, b: real, x: Vec3)
    requires a != b && x == CutPoint(Zero, E1, a, b)
    ensures x == Vec3(a / (a - b), 0.0, 0.0)
  {
    TriangleApex1Lerp0(a / (a - b));
  }

  lemma {:induction false} TriangleApex1Point1(f: seq<real>, V: seq<Vertex>, X: seq<Vec3>)
    requires |f| == 3 && |V| == 3 && V[1].lset == f[1] && V[2].lset == f[2]
    requires CuttablePairs(V, Range(0, 3), [(0, 1), (1, 2)])
    requires X == BaseCoordinates(3) + CutCoordinates(V, BaseCoordinates(3), Range(0, 3), [(0, 1), (1, 2)])
    ensures f[1] != f[2] && X[4] == CutPoint(E1, E2, f[1], f[2])
  {
    CutCoordinatesIndex(V, BaseCoordinates(3), Range(0, 3), [(0, 1), (1, 2)], X, 1);
    assert Range(0, 3)[1] == 1 && Range(0, 3)[2] == 2;
  }

  lemma {:induction false} TriangleApex1Value1(a: real, b: real, x: Vec3)
    requires a != b && x == CutPoint(E1, E2, a, b)
    ensures x == Vec3(1.0 - a / (a - b), a / (a - b), 0.0)
  {
    TriangleApex1Lerp1(a / (a - b));
  }

  lemma {:induction false} TriangleApex1Coordinates(f: seq<real>, V: seq<Vertex>, dt: DomainType, X: seq<Vec3>)
    returns (t01: real, t12: real, x0: Vec3, x1: Vec3, x2: Vec3, x3: Vec3, x4: Vec3)
    requires |f| == 3 && |V| == 3 && forall i :: 0 <= i < 3 ==> V[i].lset == f[i]
    requires dt != IF && IsRelevant(dt, f[1]) && IsRelevant(Opposite(dt), f[0]) && IsRelevant(Opposite(dt), f[2])
    requires CuttablePairs(V, Range(0, 3), [(0, 1), (1, 2)])
    requires X == BaseCoordinates(3) + CutCoordinates(V, BaseCoordinates(3), Range(0, 3), [(0, 1), (1, 2)])
    ensures |X| == 5 && X[0] == x0 && X[1] == x1 && X[2] == x2 && X[3] == x3 && X[4] == x4
    ensures 0.0 < t01 < 1.0 && 0.0 < t12 < 1.0
    ensures x0 == Zero && x1 == E1 && x2 == E2 && x3 == Vec3(t01, 0.0, 0.0) && x4 == Vec3(1.0 - t12, t12, 0.0)
  {
    TriangleApex1Point0(f, V, X);
    TriangleApex1Value0(f[0], f[1], X[3]);
    CutParameterBounds(f[0], f[1]);
    TriangleApex1Point1(f, V, X);
    TriangleApex1Value1(f[1], f[2], X[4]);
    CutParameterBounds(f[1], f[2]);
    t01 := f[0] / (f[0] - f[1]);
    t12 := f[1] / (f[1] - f[2]);
    x0, x1, x2, x3, x4 := Zero, E1, E2, Vec3(t01, 0.0, 0.0), Vec3(1.0 - t12, t12, 0.0);
  }

  /** The measures of both domains' pieces add up to one when vertex 1 alone lies in domain dt. */
  lemma {:induction false} TriangleApex1Measure(f: seq<real>, V: seq<Vertex>, store: VertexStore, dt: DomainType, X: seq<Vec3>)
    requires |f| == 3 && |V| == 3 && forall i :: 0 <= i < 3 ==> V[i].lset == f[i]
    requires dt != IF && TestsAgree(f)
    requires IsRelevant(dt, f[1]) && IsRelevant(Opposite(dt), f[0]) && IsRelevant(Opposite(dt), f[2])
    requires CuttablePairs(V, Range(0, 3), CutPairs(f))
    requires X == BaseCoordinates(3) + CutCoordinates(V, BaseCoordinates(3), Range(0, 3), CutPairs(f))
    ensures |X| == 5
    ensures AllSimplexBelow([Polytope([3, 4, 1], 1, store)], 2, 5) && AllSimplexBelow([Polytope([0, 2, 4], 2, store), Polytope([3, 4, 0], 1, store)], 2, 5)
    ensures Sum(Orientations(X, [Polytope([3, 4, 1], 1, store)], 2)) + Sum(Orientations(X, [Polytope([0, 2, 4], 2, store), Polytope([3, 4, 0], 1, store)], 2)) == 1.0
  {
    TriangleApex1Cut(f, dt);
    var t01, t12, x0, x1, x2, x3, x4 := TriangleApex1Coordinates(f, V, dt, X);
    TriangleApex1Orientations(x0, x1, x2, x3, x4, t01, t12);
    TriangleApex1InsideSum(X, store, x0, x1, x2, x3, x4,
      Abs(Orient2(x3, x4, x1)));
    TriangleApex1OutsideSum(X, store, x0, x1, x2, x3, x4,
      Abs(Orient2(x0, x2, x4)),
      Abs(Orient2(x3, x4, x0)));
  }

  /**
   * When vertex 1 alone lies in domain dt, the table's pieces of both
   * domains have absolute orientations that add up to one.
   */
  lemma {:induction false} TriangleApex1(f: seq<real>, V: seq<Vertex>, store: VertexStore, dt: DomainType, X: seq<Vec3>)
    requires |f| == 3 && |V| == 3 && forall i :: 0 <= i < 3 ==> V[i].lset == f[i]
    requires dt != IF && TestsAgree(f)
    requires IsRelevant(dt, f[1]) && IsRelevant(Opposite(dt), f[0]) && IsRelevant(Opposite(dt), f[2])
    requires CuttablePairs(V, Range(0, 3), CutPairs(f))
    requires X == BaseCoordinates(3) + CutCoordinates(V, BaseCoordinates(3), Range(0, 3), CutPairs(f))
    ensures CutPairs(f) == [(0, 1), (1, 2)] && |X| == 5
    ensures Decompose(dt, 2, f, Polytope(Range(3, 2), 1, store)) == Ok([Polytope([3, 4, 1], 1, store)])
    ensures Decompose(Opposite(dt), 2, f, Polytope(Range(3, 2), 1, store)) == Ok([Polytope([0, 2, 4], 2, store), Polytope([3, 4, 0], 1, store)])
    ensures AllSimplexBelow([Polytope([3, 4, 1], 1, store)], 2, 5) && AllSimplexBelow([Polytope([0, 2, 4], 2, store), Polytope([3, 4, 0], 1, store)], 2, 5)
    ensures Sum(Orientations(X, [Polytope([3, 4, 1], 1, store)], 2)) + Sum(Orientations(X, [Polytope([0, 2, 4], 2, store), Polytope([3, 4, 0], 1, store)], 2)) == 1.0
  {
    TriangleApex1Pieces(f, store, dt);
    TriangleApex1Measure(f, V, store, dt, X);
  }

  /** The same, stated for the positive and the negative domain. */
  lemma {:induction false} TriangleApex1Tiles(f: seq<real>, V: seq<Vertex>, store: VertexStore, dt: DomainType, X: seq<Vec3>)
    requires |f| == 3 && |V| == 3 && forall i :: 0 <= i < 3 ==> V[i].lset == f[i]
    requires dt != IF && TestsAgree(f)
    requires IsRelevant(dt, f[1]) && IsRelevant(Opposite(dt), f[0]) && IsRelevant(Opposite(dt), f[2])
    requires CuttablePairs(V, Range(0, 3), CutPairs(f))
    requires X == BaseCoordinates(3) + CutCoordinates(V, BaseCoordinates(3), Range(0, 3), CutPairs(f))
    ensures PiecesTile(f, 2, Polytope(Range(3, |CutPairs(f)|), 1, store), X)
  {
    TriangleApex1Pieces(f, store, dt);
    TriangleApex1Measure(f, V, store, dt, X);
    ListsTile(f, 2, Polytope(Range(3, 2), 1, store), X, dt, [Polytope([3, 4, 1], 1, store)], [Polytope([0, 2, 4], 2, store), Polytope([3, 4, 0], 1, store)]);
  }

  /** The cut pairs when vertex 2 alone lies in domain dt. */
  lemma {:induction false} TriangleApex2Cut(f: seq<real>, dt: DomainType)
    requires |f| == 3 && dt != IF && TestsAgree(f)
    requires IsRelevant(dt, f[2]) && IsRelevant(Opposite(dt), f[0]) && IsRelevant(Opposite(dt), f[1])
    ensures CutPairs(f) == [(0, 2), (1, 2)]
  {
    CutPairsAgree(f);
    StrictPairsOfThree(f);
    assert PairIf(f, 0, 1) == [];
    assert PairIf(f, 0, 2) == [(0, 2)];
    assert PairIf(f, 1, 2) == [(1, 2)];
  }

  /** The relevant vertices of both domains when vertex 2 alone lies in domain dt. */
  lemma {:induction false} TriangleApex2Relevant(f: seq<real>, dt: DomainType)
    requires |f| == 3 && dt != IF
    requires IsRelevant(dt, f[2]) && IsRelevant(Opposite(dt), f[0]) && IsRelevant(Opposite(dt), f[1])
    ensures RelevantUpTo(dt, f, 3) == [2] && RelevantUpTo(Opposite(dt), f, 3) == [0, 1]
  {
    RelevantAre2Of3(dt, f);
    RelevantAre01Of3(Opposite(dt), f);
  }

  lemma {:induction false} TriangleApex2InsideTable(store: VertexStore)
    ensures VolumeTable(2, Polytope(Range(3, 2), 1, store), [2]) == Ok([Polytope([3, 4, 2], 1, store)])
  {
    assert Range(3, 2) == [3, 4];
    assert [3, 4] + [2] == [3, 4, 2];
  }

  lemma {:induction false} TriangleApex2Inside(f: seq<real>, store: VertexStore, dt: DomainType)
    requires |f| == 3 && dt != IF
    requires IsRelevant(dt, f[2]) && IsRelevant(Opposite(dt), f[0]) && IsRelevant(Opposite(dt), f[1])
    ensures Decompose(dt, 2, f, Polytope(Range(3, 2), 1, store)) == Ok([Polytope([3, 4, 2], 1, store)])
  {
    TriangleApex2Relevant(f, dt);
    DecomposeVolume(dt, 2, f, Polytope(Range(3, 2), 1, store), [2]);
    TriangleApex2InsideTable(store);
  }

  lemma {:induction false} TriangleApex2OutsideTable(store: VertexStore)
    ensures VolumeTable(2, Polytope(Range(3, 2), 1, store), [0, 1]) == Ok([Polytope([0, 1, 4], 2, store), Polytope([3, 4, 0], 1, store)])
  {
    assert Range(3, 2) == [3, 4];
    assert [0, 1] + [4] == [0, 1, 4];
    assert [3, 4] + [0] == [3, 4, 0];
  }

  lemma {:induction false} TriangleApex2Outside(f: seq<real>, store: VertexStore, dt: DomainType)
    requires |f| == 3 && dt != IF
    requires IsRelevant(dt, f[2]) && IsRelevant(Opposite(dt), f[0]) && IsRelevant(Opposite(dt), f[1])
    ensures Decompose(Opposite(dt), 2, f, Polytope(Range(3, 2), 1, store)) == Ok([Polytope([0, 1, 4], 2, store), Polytope([3, 4, 0], 1, store)])
  {
    TriangleApex2Relevant(f, dt);
    DecomposeVolume(Opposite(dt), 2, f, Polytope(Range(3, 2), 1, store), [0, 1]);
    TriangleApex2OutsideTable(store);
  }

  /** The cut and the table entries when vertex 2 alone lies in domain dt. */
  lemma {:induction false} TriangleApex2Pieces(f: seq<real>, store: VertexStore, dt: DomainType)
    requires |f| == 3 && dt != IF && TestsAgree(f)
    requires IsRelevant(dt, f[2]) && IsRelevant(Opposite(dt), f[0]) && IsRelevant(Opposite(dt), f[1])
    ensures CutPairs(f) == [(0, 2), (1, 2)]
    ensures Decompose(dt, 2, f, Polytope(Range(3, 2), 1, store)) == Ok([Polytope([3, 4, 2], 1, store)])
    ensures Decompose(Opposite(dt), 2, f, Polytope(Range(3, 2), 1, store)) == Ok([Polytope([0, 1, 4], 2, store), Polytope([3, 4, 0], 1, store)])
  {
    TriangleApex2Cut(f, dt);
    TriangleApex2Inside(f, store, dt);
    TriangleApex2Outside(f, store, dt);
  }

  lemma TriangleApex2Orient0(t02: real, t12: real)
    ensures Orient2(Vec3(0.0, t02, 0.0), Vec3(1.0 - t12, t12, 0.0), E2) == -((1.0 - t02) * (1.0 - t12))
  {
    assert Orient2(Vec3(0.0, t02, 0.0), Vec3(1.0 - t12, t12, 0.0), E2) == -1.0 + t02 + t12 - t02 * t12 by {
      assert Sub(E2, Vec3(0.0, t02, 0.0)) == Vec3(0.0, 1.0 - t02, 0.0);
      assert Sub(Vec3(1.0 - t12, t12, 0.0), Vec3(0.0, t02, 0.0)) == Vec3(1.0 - t12, -t02 + t12, 0.0);
      assert Orient2(Vec3(0.0, t02, 0.0), Vec3(1.0 - t12, t12, 0.0), E2) == -((1.0 - t02) * (1.0 - t12));
    }
  }

  lemma TriangleApex2Piece0(t02: real, t12: real, p: real, o: real)
    requires 0.0 < t02 < 1.0 && 0.0 < t12 < 1.0 && p == (1.0 - t02) * (1.0 - t12) && o == -p
    ensures p > 0.0 && Abs(o) == p
  {
    PositiveTwoFactors((1.0 - t02), (1.0 - t12), p);
  }

  lemma TriangleApex2Orient1(t02: real, t12: real)
    ensures Orient2(Zero, E1, Vec3(1.0 - t12, t12, 0.0)) == -t12
  {
    assert Sub(Vec3(1.0 - t12, t12, 0.0), Zero) == Vec3(1.0 - t12, t12, 0.0);
    assert Sub(E1, Zero) == Vec3(1.0, 0.0, 0.0);
    assert Orient2(Zero, E1, Vec3(1.0 - t12, t12, 0.0)) == -(t12 * 1.0);
  }

  lemma TriangleApex2Piece1(t02: real, t12: real, p: real, o: real)
    requires 0.0 < t02 < 1.0 && 0.0 < t12 < 1.0 && p == t12 && o == -p
    ensures p > 0.0 && Abs(o) == p
  {
  }

  lemma TriangleApex2Orient2(t02: real, t12: real)
    ensures Orient2(Vec3(0.0, t02, 0.0), Vec3(1.0 - t12, t12, 0.0), Zero) == t02 * (1.0 - t12)
  {
    assert Orient2(Vec3(0.0, t02, 0.0), Vec3(1.0 - t12, t12, 0.0), Zero) == t02 - t02 * t12 by {
      assert Sub(Zero, Vec3(0.0, t02, 0.0)) == Vec3(0.0, -t02, 0.0);
      assert Sub(Vec3(1.0 - t12, t12, 0.0), Vec3(0.0, t02, 0.0)) == Vec3(1.0 - t12, -t02 + t12, 0.0);
      assert Orient2(Vec3(0.0, t02, 0.0), Vec3(1.0 - t12, t12, 0.0), Zero) == -((-t02) * (1.0 - t12));
    }
  }

  lemma TriangleApex2Piece2(t02: real, t12: real, p: real, o: real)
    requires 0.0 < t02 < 1.0 && 0.0 < t12 < 1.0 && p == t02 * (1.0 - t12) && o == p
    ensures p > 0.0 && Abs(o) == p
  {
    PositiveTwoFactors(t02, (1.0 - t12), p);
  }

  lemma {:induction false} TriangleApex2Identity(t02: real, t12: real)
    ensures (1.0 - t02) * (1.0 - t12) + t12 + t02 * (1.0 - t12) == 1.0
  {
  }

  lemma {:induction false} TriangleApex2At0(t02: real, t12: real, o: real)
    requires 0.0 < t02 < 1.0 && 0.0 < t12 < 1.0 && o == Abs(Orient2(Vec3(0.0, t02, 0.0), Vec3(1.0 - t12, t12, 0.0), E2))
    ensures o == (1.0 - t02) * (1.0 - t12)
  {
    TriangleApex2Orient0(t02, t12);
    TriangleApex2Piece0(t02, t12, (1.0 - t02) * (1.0 - t12), Orient2(Vec3(0.0, t02, 0.0), Vec3(1.0 - t12, t12, 0.0), E2));
  }

  lemma {:induction false} TriangleApex2At1(t02: real, t12: real, o: real)
    requires 0.0 < t02 < 1.0 && 0.0 < t12 < 1.0 && o == Abs(Orient2(Zero, E1, Vec3(1.0 - t12, t12, 0.0)))
    ensures o == t12
  {
    TriangleApex2Orient1(t02, t12);
    TriangleApex2Piece1(t02, t12, t12, Orient2(Zero, E1, Vec3(1.0 - t12, t12, 0.0)));
  }

  lemma {:induction false} TriangleApex2At2(t02: real, t12: real, o: real)
    requires 0.0 < t02 < 1.0 && 0.0 < t12 < 1.0 && o == Abs(Orient2(Vec3(0.0, t02, 0.0), Vec3(1.0 - t12, t12, 0.0), Zero))
    ensures o == t02 * (1.0 - t12)
  {
    TriangleApex2Orient2(t02, t12);
    TriangleApex2Piece2(t02, t12, t02 * (1.0 - t12), Orient2(Vec3(0.0, t02, 0.0), Vec3(1.0 - t12, t12, 0.0), Zero));
  }

  lemma {:induction false} TriangleApex2InsideSum(X: seq<Vec3>, store: VertexStore,
    x0: Vec3, x1: Vec3, x2: Vec3, x3: Vec3, x4: Vec3,
    v0: real)
    requires |X| == 5 && X[0] == x0 && X[1] == x1 && X[2] == x2 && X[3] == x3 && X[4] == x4
    requires v0 == Abs(Orient2(x3, x4, x2))
    ensures AllSimplexBelow([Polytope([3, 4, 2], 1, store)], 2, 5)
    ensures Sum(Orientations(X, [Polytope([3, 4, 2], 1, store)], 2)) == v0
  {
    var pieces := [Polytope([3, 4, 2], 1, store)];
    assert AllSimplexBelow(pieces, 2, |X|);
    var os := Orientations(X, pieces, 2);
    assert pieces[0].ia == [3, 4, 2];
    TriangleOrientationAt(X, pieces, 0, 3, 4, 2, os[0]);
    SumOfOne(os);
  }

  lemma {:induction false} TriangleApex2OutsideSum(X: seq<Vec3>, store: VertexStore,
    x0: Vec3, x1: Vec3, x2: Vec3, x3: Vec3, x4: Vec3,
    v1: real, v2: real)
    requires |X| == 5 && X[0] == x0 && X[1] == x1 && X[2] == x2 && X[3] == x3 && X[4] == x4
    requires v1 == Abs(Orient2(x0, x1, x4))
    requires v2 == Abs(Orient2(x3, x4, x0))
    ensures AllSimplexBelow([Polytope([0, 1, 4], 2, store), Polytope([3, 4, 0], 1, store)], 2, 5)
    ensures Sum(Orientations(X, [Polytope([0, 1, 4], 2, store), Polytope([3, 4, 0], 1, store)], 2)) == v1 + v2
  {
    var pieces := [Polytope([0, 1, 4], 2, store), Polytope([3, 4, 0], 1, store)];
    assert AllSimplexBelow(pieces, 2, |X|);
    var os := Orientations(X, pieces, 2);
    assert pieces[0].ia == [0, 1, 4];
    TriangleOrientationAt(X, pieces, 0, 0, 1, 4, os[0]);
    assert pieces[1].ia == [3, 4, 0];
    TriangleOrientationAt(X, pieces, 1, 3, 4, 0, os[1]);
    SumOfTwo(os);
  }

  lemma {:induction false} TriangleApex2Total(t02: real, t12: real, v0: real, v1: real, v2: real)
    requires 0.0 < t02 < 1.0 && 0.0 < t12 < 1.0
    requires v0 == Abs(Orient2(Vec3(0.0, t02, 0.0), Vec3(1.0 - t12, t12, 0.0), E2))
    requires v1 == Abs(Orient2(Zero, E1, Vec3(1.0 - t12, t12, 0.0)))
    requires v2 == Abs(Orient2(Vec3(0.0, t02, 0.0), Vec3(1.0 - t12, t12, 0.0), Zero))
    ensures v0 + v1 + v2 == 1.0
  {
    TriangleApex2At0(t02, t12, v0);
    TriangleApex2At1(t02, t12, v1);
    TriangleApex2At2(t02, t12, v2);
    TriangleApex2Identity(t02, t12);
  }

  lemma {:induction false} TriangleApex2Orientations(x0: Vec3, x1: Vec3, x2: Vec3, x3: Vec3, x4: Vec3, t02: real, t12: real)
    requires 0.0 < t02 < 1.0 && 0.0 < t12 < 1.0
    requires x0 == Zero && x1 == E1 && x2 == E2 && x3 == Vec3(0.0, t02, 0.0) && x4 == Vec3(1.0 - t12, t12, 0.0)
    ensures Abs(Orient2(x3, x4, x2)) + Abs(Orient2(x0, x1, x4)) + Abs(Orient2(x3, x4, x0)) == 1.0
  {
    TriangleApex2Total(t02, t12, Abs(Orient2(x3, x4, x2)), Abs(Orient2(x0, x1, x4)), Abs(Orient2(x3, x4, x0)));
  }

  lemma {:induction false} TriangleApex2Lerp0(t02: real)
    ensures Add(Zero, Scale(t02, Sub(E2, Zero))) == Vec3(0.0, t02, 0.0)
  {
  }

  lemma {:induction false} TriangleApex2Lerp1(t12: real)
    ensures Add(E1, Scale(t12, Sub(E2, E1))) == Vec3(1.0 - t12, t12, 0.0)
  {
  }

  lemma {:induction false} TriangleApex2Point0(f: seq<real>, V: seq<Vertex>, X: seq<Vec3>)
    requires |f| == 3 && |V| == 3 && V[0].lset == f[0] && V[2].lset == f[2]
    requires CuttablePairs(V, Range(0, 3), [(0, 2), (1, 2)])
    requires X == BaseCoordinates(3) + CutCoordinates(V, BaseCoordinates(3), Range(0, 3), [(0, 2), (1, 2)])
    ensures f[0] != f[2] && X[3] == CutPoint(Zero, E2, f[0], f[2])
  {
    CutCoordinatesIndex(V, BaseCoordinates(3), Range(0, 3), [(0, 2), (1, 2)], X, 0);
    assert Range(0, 3)[0] == 0 && Range(0, 3)[2] == 2;
  }

  lemma {:induction false} TriangleApex2Value0(a: real, b: real, x: Vec3)
    requires a != b && x == CutPoint(Zero, E2, a, b)
    ensures x == Vec3(0.0, a / (a - b), 0.0)
  {
    TriangleApex2Lerp0(a / (a - b));
  }

  lemma {:induction false} TriangleApex2Point1(f: seq<real>, V: seq<Vertex>, X: seq<Vec3>)
    requires |f| == 3 && |V| == 3 && V[1].lset == f[1] && V[2].lset == f[2]
    requires CuttablePairs(V, Range(0, 3), [(0, 2), (1, 2)])
    requires X == BaseCoordinates(3) + CutCoordinates(V, BaseCoordinates(3), Range(0, 3), [(0, 2), (1, 2)])
    ensures f[1] != f[2] && X[4] == CutPoint(E1, E2, f[1], f[2])
  {
    CutCoordinatesIndex(V, BaseCoordinates(3), Range(0, 3), [(0, 2), (1, 2)], X, 1);
    assert Range(0, 3)[1] == 1 && Range(0, 3)[2] == 2;
  }

  lemma {:induction false} TriangleApex2Value1(a: real, b: real, x: Vec3)
    requires a != b && x == CutPoint(E1, E2, a, b)
    ensures x == Vec3(1.0 - a / (a - b), a / (a - b), 0.0)
  {
    TriangleApex2Lerp1(a / (a - b));
  }

  lemma {:induction false} TriangleApex2Coordinates(f: seq<real>, V: seq<Vertex>, dt: DomainType, X: seq<Vec3>)
    returns (t02: real, t12: real, x0: Vec3, x1: Vec3, x2: Vec3, x3: Vec3, x4: Vec3)
    requires |f| == 3 && |V| == 3 && forall i :: 0 <= i < 3 ==> V[i].lset == f[i]
    requires dt != IF && IsRelevant(dt, f[2]) && IsRelevant(Opposite(dt), f[0]) && IsRelevant(Opposite(dt), f[1])
    requires CuttablePairs(V, Range(0, 3), [(0, 2), (1, 2)])
    requires X == BaseCoordinates(3) + CutCoordinates(V, BaseCoordinates(3), Range(0, 3), [(0, 2), (1, 2)])
    ensures |X| == 5 && X[0] == x0 && X[1] == x1 && X[2] == x2 && X[3] == x3 && X[4] == x4
    ensures 0.0 < t02 < 1.0 && 0.0 < t12 < 1.0
    ensures x0 == Zero && x1 == E1 && x2 == E2 && x3 == Vec3(0.0, t02, 0.0) && x4 == Vec3(1.0 - t12, t12, 0.0)
  {
    TriangleApex2Point0(f, V, X);
    TriangleApex2Value0(f[0], f[2], X[3]);
    CutParameterBounds(f[0], f[2]);
    TriangleApex2Point1(f, V, X);
    TriangleApex2Value1(f[1], f[2], X[4]);
    CutParameterBounds(f[1], f[2]);
    t02 := f[0] / (f[0] - f[2]);
    t12 := f[1] / (f[1] - f[2]);
    x0, x1, x2, x3, x4 := Zero, E1, E2, Vec3(0.0, t02, 0.0), Vec3(1.0 - t12, t12, 0.0);
  }

  /** The measures of both domains' pieces add up to one when vertex 2 alone lies in domain dt. */
  lemma {:induction false} TriangleApex2Measure(f: seq<real>, V: seq<Vertex>, store: VertexStore, dt: DomainType, X: seq<Vec3>)
    requires |f| == 3 && |V| == 3 && forall i :: 0 <= i < 3 ==> V[i].lset == f[i]
    requires dt != IF && TestsAgree(f)
    requires IsRelevant(dt, f[2]) && IsRelevant(Opposite(dt), f[0]) && IsRelevant(Opposite(dt), f[1])
    requires CuttablePairs(V, Range(0, 3), CutPairs(f))
    requires X == BaseCoordinates(3) + CutCoordinates(V, BaseCoordinates(3), Range(0, 3), CutPairs(f))
    ensures |X| == 5
    ensures AllSimplexBelow([Polytope([3, 4, 2], 1, store)], 2, 5) && AllSimplexBelow([Polytope([0, 1, 4], 2, store), Polytope([3, 4, 0], 1, store)], 2, 5)
    ensures Sum(Orientations(X, [Polytope([3, 4, 2], 1, store)], 2)) + Sum(Orientations(X, [Polytope([0, 1, 4], 2, store), Polytope([3, 4, 0], 1, store)], 2)) == 1.0
  {
    TriangleApex2Cut(f, dt);
    var t02, t12, x0, x1, x2, x3, x4 := TriangleApex2Coordinates(f, V, dt, X);
    TriangleApex2Orientations(x0, x1, x2, x3, x4, t02, t12);
    TriangleApex2InsideSum(X, store, x0, x1, x2, x3, x4,
      Abs(Orient2(x3, x4, x2)));
    TriangleApex2OutsideSum(X, store, x0, x1, x2, x3, x4,
      Abs(Orient2(x0, x1, x4)),
      Abs(Orient2(x3, x4, x0)));
  }

  /**
   * When vertex 2 alone lies in domain dt, the table's pieces of both
   * domains have absolute orientations that add up to one.
   */
  lemma {:induction false} TriangleApex2(f: seq<real>, V: seq<Vertex>, store: VertexStore, dt: DomainType, X: seq<Vec3>)
    requires |f| == 3 && |V| == 3 && forall i :: 0 <= i < 3 ==> V[i].lset == f[i]
    requires dt != IF && TestsAgree(f)
    requires IsRelevant(dt, f[2]) && IsRelevant(Opposite(dt), f[0]) && IsRelevant(Opposite(dt), f[1])
    requires CuttablePairs(V, Range(0, 3), CutPairs(f))
    requires X == BaseCoordinates(3) + CutCoordinates(V, BaseCoordinates(3), Range(0, 3), CutPairs(f))
    ensures CutPairs(f) == [(0, 2), (1, 2)] && |X| == 5
    ensures Decompose(dt, 2, f, Polytope(Range(3, 2), 1, store)) == Ok([Polytope([3, 4, 2], 1, store)])
    ensures Decompose(Opposite(dt), 2, f, Polytope(Range(3, 2), 1, store)) == Ok([Polytope([0, 1, 4], 2, store), Polytope([3, 4, 0], 1, store)])
    ensures AllSimplexBelow([Polytope([3, 4, 2], 1, store)], 2, 5) && AllSimplexBelow([Polytope([0, 1, 4], 2, store), Polytope([3, 4, 0], 1, store)], 2, 5)
    ensures Sum(Orientations(X, [Polytope([3, 4, 2], 1, store)], 2)) + Sum(Orientations(X, [Polytope([0, 1, 4], 2, store), Polytope([3, 4, 0], 1, store)], 2)) == 1.0
  {
    TriangleApex2Pieces(f, store, dt);
    TriangleApex2Measure(f, V, store, dt, X);
  }

  /** The same, stated for the positive and the negative domain. */
  lemma {:induction false} TriangleApex2Tiles(f: seq<real>, V: seq<Vertex>, store: VertexStore, dt: DomainType, X: seq<Vec3>)
    requires |f| == 3 && |V| == 3 && forall i :: 0 <= i < 3 ==> V[i].lset == f[i]
    requires dt != IF && TestsAgree(f)
    requires IsRelevant(dt, f[2]) && IsRelevant(Opposite(dt), f[0]) && IsRelevant(Opposite(dt), f[1])
    requires CuttablePairs(V, Range(0, 3), CutPairs(f))
    requires X == BaseCoordinates(3) + CutCoordinates(V, BaseCoordinates(3), Range(0, 3), CutPairs(f))
    ensures PiecesTile(f, 2, Polytope(Range(3, |CutPairs(f)|), 1, store), X)
  {
    TriangleApex2Pieces(f, store, dt);
    TriangleApex2Measure(f, V, store, dt, X);
    ListsTile(f, 2, Polytope(Range(3, 2), 1, store), X, dt, [Polytope([3, 4, 2], 1, store)], [Polytope([0, 1, 4], 2, store), Polytope([3, 4, 0], 1, store)]);
  }

  /** The cut pairs when vertex 0 alone lies in domain dt. */
  lemma {:induction false} TetApex0Cut(f: seq<real>, dt: DomainType)
    requires |f| == 4 && dt != IF && TestsAgree(f)
    requires IsRelevant(dt, f[0]) && IsRelevant(Opposite(dt), f[1]) && IsRelevant(Opposite(dt), f[2]) && IsRelevant(Opposite(dt), f[3])
    ensures CutPairs(f) == [(0, 1), (0, 2), (0, 3)]
  {
    CutPairsAgree(f);
    StrictPairsOfFour(f);
    assert PairIf(f, 0, 1) == [(0, 1)];
    assert PairIf(f, 0, 2) == [(0, 2)];
    assert PairIf(f, 0, 3) == [(0, 3)];
    assert PairIf(f, 1, 2) == [];
    assert PairIf(f, 1, 3) == [];
    assert PairIf(f, 2, 3) == [];
  }

  /** The relevant vertices of both domains when vertex 0 alone lies in domain dt. */
  lemma {:induction false} TetApex0Relevant(f: seq<real>, dt: DomainType)
    requires |f| == 4 && dt != IF
    requires IsRelevant(dt, f[0]) && IsRelevant(Opposite(dt), f[1]) && IsRelevant(Opposite(dt), f[2]) && IsRelevant(Opposite(dt), f[3])
    ensures RelevantUpTo(dt, f, 4) == [0] && RelevantUpTo(Opposite(dt), f, 4) == [1, 2, 3]
  {
    RelevantAre0Of4(dt, f);
    RelevantAre123Of4(Opposite(dt), f);
  }

  lemma {:induction false} TetApex0InsideTable(store: VertexStore)
    ensures VolumeTable(3, Polytope(Range(4, 3), 2, store), [0]) == Ok([Polytope([4, 5, 6, 0], 2, store)])
  {
    assert Range(4, 3) == [4, 5, 6];
    assert [4, 5, 6] + [0] == [4, 5, 6, 0];
  }

  lemma {:induction false} TetApex0Inside(f: seq<real>, store: VertexStore, dt: DomainType)
    requires |f| == 4 && dt != IF
    requires IsRelevant(dt, f[0]) && IsRelevant(Opposite(dt), f[1]) && IsRelevant(Opposite(dt), f[2]) && IsRelevant(Opposite(dt), f[3])
    ensures Decompose(dt, 3, f, Polytope(Range(4, 3), 2, store)) == Ok([Polytope([4, 5, 6, 0], 2, store)])
  {
    TetApex0Relevant(f, dt);
    DecomposeVolume(dt, 3, f, Polytope(Range(4, 3), 2, store), [0]);
    TetApex0InsideTable(store);
  }

  lemma {:induction false} TetApex0OutsideTable(store: VertexStore)
    ensures VolumeTable(3, Polytope(Range(4, 3), 2, store), [1, 2, 3]) == Ok([Polytope([4, 5, 6, 3], 2, store), Polytope([1, 2, 3, 5], 3, store), Polytope([4, 5, 1, 3], 2, store)])
  {
    assert Range(4, 3) == [4, 5, 6];
    assert [4, 5, 6] + [3] == [4, 5, 6, 3];
    assert [1, 2, 3] + [5] == [1, 2, 3, 5];
    assert [4, 5, 6][2 := 1] + [3] == [4, 5, 1, 3];
  }

  lemma {:induction false} TetApex0Outside(f: seq<real>, store: VertexStore, dt: DomainType)
    requires |f| == 4 && dt != IF
    requires IsRelevant(dt, f[0]) && IsRelevant(Opposite(dt), f[1]) && IsRelevant(Opposite(dt), f[2]) && IsRelevant(Opposite(dt), f[3])
    ensures Decompose(Opposite(dt), 3, f, Polytope(Range(4, 3), 2, store)) == Ok([Polytope([4, 5, 6, 3], 2, store), Polytope([1, 2, 3, 5], 3, store), Polytope([4, 5, 1, 3], 2, store)])
  {
    TetApex0Relevant(f, dt);
    DecomposeVolume(Opposite(dt), 3, f, Polytope(Range(4, 3), 2, store), [1, 2, 3]);
    TetApex0OutsideTable(store);
  }

  /** The cut and the table entries when vertex 0 alone lies in domain dt. */
  lemma {:induction false} TetApex0Pieces(f: seq<real>, store: VertexStore, dt: DomainType)
    requires |f| == 4 && dt != IF && TestsAgree(f)
    requires IsRelevant(dt, f[0]) && IsRelevant(Opposite(dt), f[1]) && IsRelevant(Opposite(dt), f[2]) && IsRelevant(Opposite(dt), f[3])
    ensures CutPairs(f) == [(0, 1), (0, 2), (0, 3)]
    ensures Decompose(dt, 3, f, Polytope(Range(4, 3), 2, store)) == Ok([Polytope([4, 5, 6, 0], 2, store)])
    ensures Decompose(Opposite(dt), 3, f, Polytope(Range(4, 3), 2, store)) == Ok([Polytope([4, 5, 6, 3], 2, store), Polytope([1, 2, 3, 5], 3, store), Polytope([4, 5, 1, 3], 2, store)])
  {
    TetApex0Cut(f, dt);
    TetApex0Inside(f, store, dt);
    TetApex0Outside(f, store, dt);
  }

  lemma TetApex0Orient0(t01: real, t02: real, t03: real)
    ensures Orient3(Vec3(t01, 0.0, 0.0), Vec3(0.0, t02, 0.0), Vec3(0.0, 0.0, t03), Zero) == t01 * t02 * t03
  {
    assert Sub(Zero, Vec3(t01, 0.0, 0.0)) == Vec3(-t01, 0.0, 0.0);
    assert Sub(Vec3(0.0, 0.0, t03), Vec3(t01, 0.0, 0.0)) == Vec3(-t01, 0.0, t03);
    assert Sub(Vec3(0.0, t02, 0.0), Vec3(t01, 0.0, 0.0)) == Vec3(-t01, t02, 0.0);
    assert Orient3(Vec3(t01, 0.0, 0.0), Vec3(0.0, t02, 0.0), Vec3(0.0, 0.0, t03), Zero) == (-t01) * -(t03 * t02);
  }

  lemma TetApex0Piece0(t01: real, t02: real, t03: real, p: real, o: real)
    requires 0.0 < t01 < 1.0 && 0.0 < t02 < 1.0 && 0.0 < t03 < 1.0 && p == t01 * t02 * t03 && o == p
    ensures p > 0.0 && Abs(o) == p
  {
    PositiveThreeFactors(t01, t02, t03, p);
  }

  lemma TetApex0Orient1(t01: real, t02: real, t03: real)
    ensures Orient3(Vec3(t01, 0.0, 0.0), Vec3(0.0, t02, 0.0), Vec3(0.0, 0.0, t03), E3) == -(t01 * t02 * (1.0 - t03))
  {
    assert Orient3(Vec3(t01, 0.0, 0.0), Vec3(0.0, t02, 0.0), Vec3(0.0, 0.0, t03), E3) == -t01 * t02 + t01 * t02 * t03 by {
      assert Sub(E3, Vec3(t01, 0.0, 0.0)) == Vec3(-t01, 0.0, 1.0);
      assert Sub(Vec3(0.0, 0.0, t03), Vec3(t01, 0.0, 0.0)) == Vec3(-t01, 0.0, t03);
      assert Sub(Vec3(0.0, t02, 0.0), Vec3(t01, 0.0, 0.0)) == Vec3(-t01, t02, 0.0);
      assert Orient3(Vec3(t01, 0.0, 0.0), Vec3(0.0, t02, 0.0), Vec3(0.0, 0.0, t03), E3) == (-t01) * -(t03 * t02) + 1.0 * ((-t01) * t02);
    }
  }

  lemma TetApex0Piece1(t01: real, t02: real, t03: real, p: real, o: real)
    requires 0.0 < t01 < 1.0 && 0.0 < t02 < 1.0 && 0.0 < t03 < 1.0 && p == t01 * t02 * (1.0 - t03) && o == -p
    ensures p > 0.0 && Abs(o) == p
  {
    PositiveThreeFactors(t01, t02, (1.0 - t03), p);
  }

  lemma TetApex0Orient2(t01: real, t02: real, t03: real)
    ensures Orient3(E1, E2, E3, Vec3(0.0, t02, 0.0)) == (1.0 - t02)
  {
    assert Orient3(E1, E2, E3, Vec3(0.0, t02, 0.0)) == 1.0 - t02 by {
      assert Sub(Vec3(0.0, t02, 0.0), E1) == Vec3(-1.0, t02, 0.0);
      assert Sub(E3, E1) == Vec3(-1.0, 0.0, 1.0);
      assert Sub(E2, E1) == Vec3(-1.0, 1.0, 0.0);
      assert Orient3(E1, E2, E3, Vec3(0.0, t02, 0.0)) == (-1.0) * -(1.0 * 1.0) - t02 * -(1.0 * (-1.0));
    }
  }

  lemma TetApex0Piece2(t01: real, t02: real, t03: real, p: real, o: real)
    requires 0.0 < t01 < 1.0 && 0.0 < t02 < 1.0 && 0.0 < t03 < 1.0 && p == (1.0 - t02) && o == p
    ensures p > 0.0 && Abs(o) == p
  {
  }

  lemma TetApex0Orient3(t01: real, t02: real, t03: real)
    ensures Orient3(Vec3(t01, 0.0, 0.0), Vec3(0.0, t02, 0.0), E1, E3) == (1.0 - t01) * t02
  {
    assert Orient3(Vec3(t01, 0.0, 0.0), Vec3(0.0, t02, 0.0), E1, E3) == t02 - t01 * t02 by {
      assert Sub(E3, Vec3(t01, 0.0, 0.0)) == Vec3(-t01, 0.0, 1.0);
      assert Sub(E1, Vec3(t01, 0.0, 0.0)) == Vec3(1.0 - t01, 0.0, 0.0);
      assert Sub(Vec3(0.0, t02, 0.0), Vec3(t01, 0.0, 0.0)) == Vec3(-t01, t02, 0.0);
      assert Orient3(Vec3(t01, 0.0, 0.0), Vec3(0.0, t02, 0.0), E1, E3) == 1.0 * ((1.0 - t01) * t02);
    }
  }

  lemma TetApex0Piece3(t01: real, t02: real, t03: real, p: real, o: real)
    requires 0.0 < t01 < 1.0 && 0.0 < t02 < 1.0 && 0.0 < t03 < 1.0 && p == (1.0 - t01) * t02 && o == p
    ensures p > 0.0 && Abs(o) == p
  {
    PositiveTwoFactors((1.0 - t01), t02, p);
  }

  lemma {:induction false} TetApex0Identity(t01: real, t02: real, t03: real)
    ensures t01 * t02 * t03 + t01 * t02 * (1.0 - t03) + (1.0 - t02) + (1.0 - t01) * t02 == 1.0
  {
  }

  lemma {:induction false} TetApex0At0(t01: real, t02: real, t03: real, o: real)
    requires 0.0 < t01 < 1.0 && 0.0 < t02 < 1.0 && 0.0 < t03 < 1.0 && o == Abs(Orient3(Vec3(t01, 0.0, 0.0), Vec3(0.0, t02, 0.0), Vec3(0.0, 0.0, t03), Zero))
    ensures o == t01 * t02 * t03
  {
    TetApex0Orient0(t01, t02, t03);
    TetApex0Piece0(t01, t02, t03, t01 * t02 * t03, Orient3(Vec3(t01, 0.0, 0.0), Vec3(0.0, t02, 0.0), Vec3(0.0, 0.0, t03), Zero));
  }

  lemma {:induction false} TetApex0At1(t01: real, t02: real, t03: real, o: real)
    requires 0.0 < t01 < 1.0 && 0.0 < t02 < 1.0 && 0.0 < t03 < 1.0 && o == Abs(Orient3(Vec3(t01, 0.0, 0.0), Vec3(0.0, t02, 0.0), Vec3(0.0, 0.0, t03), E3))
    ensures o == t01 * t02 * (1.0 - t03)
  {
    TetApex0Orient1(t01, t02, t03);
    TetApex0Piece1(t01, t02, t03, t01 * t02 * (1.0 - t03), Orient3(Vec3(t01, 0.0, 0.0), Vec3(0.0, t02, 0.0), Vec3(0.0, 0.0, t03), E3));
  }

  lemma {:induction false} TetApex0At2(t01: real, t02: real, t03: real, o: real)
    requires 0.0 < t01 < 1.0 && 0.0 < t02 < 1.0 && 0.0 < t03 < 1.0 && o == Abs(Orient3(E1, E2, E3, Vec3(0.0, t02, 0.0)))
    ensures o == (1.0 - t02)
  {
    TetApex0Orient2(t01, t02, t03);
    TetApex0Piece2(t01, t02, t03, (1.0 - t02), Orient3(E1, E2, E3, Vec3(0.0, t02, 0.0)));
  }

  lemma {:induction false} TetApex0At3(t01: real, t02: real, t03: real, o: real)
    requires 0.0 < t01 < 1.0 && 0.0 < t02 < 1.0 && 0.0 < t03 < 1.0 && o == Abs(Orient3(Vec3(t01, 0.0, 0.0), Vec3(0.0, t02, 0.0), E1, E3))
    ensures o == (1.0 - t01) * t02
  {
    TetApex0Orient3(t01, t02, t03);
    TetApex0Piece3(t01, t02, t03, (1.0 - t01) * t02, Orient3(Vec3(t01, 0.0, 0.0), Vec3(0.0, t02, 0.0), E1, E3));
  }

  lemma {:induction false} TetApex0InsideSum(X: seq<Vec3>, store: VertexStore,
    x0: Vec3, x1: Vec3, x2: Vec3, x3: Vec3, x4: Vec3, x5: Vec3, x6: Vec3,
    v0: real)
    requires |X| == 7 && X[0] == x0 && X[1] == x1 && X[2] == x2 && X[3] == x3 && X[4] == x4 && X[5] == x5 && X[6] == x6
    requires v0 == Abs(Orient3(x4, x5, x6, x0))
    ensures AllSimplexBelow([Polytope([4, 5, 6, 0], 2, store)], 3, 7)
    ensures Sum(Orientations(X, [Polytope([4, 5, 6, 0], 2, store)], 3)) == v0
  {
    var pieces := [Polytope([4, 5, 6, 0], 2, store)];
    assert AllSimplexBelow(pieces, 3, |X|);
    var os := Orientations(X, pieces, 3);
    assert pieces[0].ia == [4, 5, 6, 0];
    TetOrientationAt(X, pieces, 0, 4, 5, 6, 0, os[0]);
    SumOfOne(os);
  }

  lemma {:induction false} TetApex0OutsideSum(X: seq<Vec3>, store: VertexStore,
    x0: Vec3, x1: Vec3, x2: Vec3, x3: Vec3, x4: Vec3, x5: Vec3, x6: Vec3,
    v1: real, v2: real, v3: real)
    requires |X| == 7 && X[0] == x0 && X[1] == x1 && X[2] == x2 && X[3] == x3 && X[4] == x4 && X[5] == x5 && X[6] == x6
    requires v1 == Abs(Orient3(x4, x5, x6, x3))
    requires v2 == Abs(Orient3(x1, x2, x3, x5))
    requires v3 == Abs(Orient3(x4, x5, x1, x3))
    ensures AllSimplexBelow([Polytope([4, 5, 6, 3], 2, store), Polytope([1, 2, 3, 5], 3, store), Polytope([4, 5, 1, 3], 2, store)], 3, 7)
    ensures Sum(Orientations(X, [Polytope([4, 5, 6, 3], 2, store), Polytope([1, 2, 3, 5], 3, store), Polytope([4, 5, 1, 3], 2, store)], 3)) == v1 + v2 + v3
  {
    var pieces := [Polytope([4, 5, 6, 3], 2, store), Polytope([1, 2, 3, 5], 3, store), Polytope([4, 5, 1, 3], 2, store)];
    assert AllSimplexBelow(pieces, 3, |X|);
    var os := Orientations(X, pieces, 3);
    assert pieces[0].ia == [4, 5, 6, 3];
    TetOrientationAt(X, pieces, 0, 4, 5, 6, 3, os[0]);
    assert pieces[1].ia == [1, 2, 3, 5];
    TetOrientationAt(X, pieces, 1, 1, 2, 3, 5, os[1]);
    assert pieces[2].ia == [4, 5, 1, 3];
    TetOrientationAt(X, pieces, 2, 4, 5, 1, 3, os[2]);
    SumOfThree(os);
  }

  lemma {:induction false} TetApex0Total(t01: real, t02: real, t03: real, v0: real, v1: real, v2: real, v3: real)
    requires 0.0 < t01 < 1.0 && 0.0 < t02 < 1.0 && 0.0 < t03 < 1.0
    requires v0 == Abs(Orient3(Vec3(t01, 0.0, 0.0), Vec3(0.0, t02, 0.0), Vec3(0.0, 0.0, t03), Zero))
    requires v1 == Abs(Orient3(Vec3(t01, 0.0, 0.0), Vec3(0.0, t02, 0.0), Vec3(0.0, 0.0, t03), E3))
    requires v2 == Abs(Orient3(E1, E2, E3, Vec3(0.0, t02, 0.0)))
    requires v3 == Abs(Orient3(Vec3(t01, 0.0, 0.0), Vec3(0.0, t02, 0.0), E1, E3))
    ensures v0 + v1 + v2 + v3 == 1.0
  {
    TetApex0At0(t01, t02, t03, v0);
    TetApex0At1(t01, t02, t03, v1);
    TetApex0At2(t01, t02, t03, v2);
    TetApex0At3(t01, t02, t03, v3);
    TetApex0Identity(t01, t02, t03);
  }

  lemma {:induction false} TetApex0Orientations(x0: Vec3, x1: Vec3, x2: Vec3, x3: Vec3, x4: Vec3, x5: Vec3, x6: Vec3, t01: real, t02: real, t03: real)
    requires 0.0 < t01 < 1.0 && 0.0 < t02 < 1.0 && 0.0 < t03 < 1.0
    requires x0 == Zero && x1 == E1 && x2 == E2 && x3 == E3 && x4 == Vec3(t01, 0.0, 0.0) && x5 == Vec3(0.0, t02, 0.0) && x6 == Vec3(0.0, 0.0, t03)
    ensures Abs(Orient3(x4, x5, x6, x0)) + Abs(Orient3(x4, x5, x6, x3)) + Abs(Orient3(x1, x2, x3, x5)) + Abs(Orient3(x4, x5, x1, x3)) == 1.0
  {
    TetApex0Total(t01, t02, t03, Abs(Orient3(x4, x5, x6, x0)), Abs(Orient3(x4, x5, x6, x3)), Abs(Orient3(x1, x2, x3, x5)), Abs(Orient3(x4, x5, x1, x3)));
  }

  lemma {:induction false} TetApex0Lerp0(t01: real)
    ensures Add(Zero, Scale(t01, Sub(E1, Zero))) == Vec3(t01, 0.0, 0.0)
  {
  }

  lemma {:induction false} TetApex0Lerp1(t02: real)
    ensures Add(Zero, Scale(t02, Sub(E2, Zero))) == Vec3(0.0, t02, 0.0)
  {
  }

  lemma {:induction false} TetApex0Lerp2(t03: real)
    ensures Add(Zero, Scale(t03, Sub(E3, Zero))) == Vec3(0.0, 0.0, t03)
  {
  }

  lemma {:induction false} TetApex0Point0(f: seq<real>, V: seq<Vertex>, X: seq<Vec3>)
    requires |f| == 4 && |V| == 4 && V[0].lset == f[0] && V[1].lset == f[1]
    requires CuttablePairs(V, Range(0, 4), [(0, 1), (0, 2), (0, 3)])
    requires X == BaseCoordinates(4) + CutCoordinates(V, BaseCoordinates(4), Range(0, 4), [(0, 1), (0, 2), (0, 3)])
    ensures f[0] != f[1] && X[4] == CutPoint(Zero, E1, f[0], f[1])
  {
    CutCoordinatesIndex(V, BaseCoordinates(4), Range(0, 4), [(0, 1), (0, 2), (0, 3)], X, 0);
    assert Range(0, 4)[0] == 0 && Range(0, 4)[1] == 1;
  }

  lemma {:induction false} TetApex0Value0(a: real, b: real, x: Vec3)
    requires a != b && x == CutPoint(Zero, E1, a, b)
    ensures x == Vec3(a / (a - b), 0.0, 0.0)
  {
    TetApex0Lerp0(a / (a - b));
  }

  lemma {:induction false} TetApex0Point1(f: seq<real>, V: seq<Vertex>, X: seq<Vec3>)
    requires |f| == 4 && |V| == 4 && V[0].lset == f[0] && V[2].lset == f[2]
    requires CuttablePairs(V, Range(0, 4), [(0, 1), (0, 2), (0, 3)])
    requires X == BaseCoordinates(4) + CutCoordinates(V, BaseCoordinates(4), Range(0, 4), [(0, 1), (0, 2), (0, 3)])
    ensures f[0] != f[2] && X[5] == CutPoint(Zero, E2, f[0], f[2])
  {
    CutCoordinatesIndex(V, BaseCoordinates(4), Range(0, 4), [(0, 1), (0, 2), (0, 3)], X, 1);
    assert Range(0, 4)[0] == 0 && Range(0, 4)[2] == 2;
  }

  lemma {:induction false} TetApex0Value1(a: real, b: real, x: Vec3)
    requires a != b && x == CutPoint(Zero, E2, a, b)
    ensures x == Vec3(0.0, a / (a - b), 0.0)
  {
    TetApex0Lerp1(a / (a - b));
  }

  lemma {:induction false} TetApex0Point2(f: seq<real>, V: seq<Vertex>, X: seq<Vec3>)
    requires |f| == 4 && |V| == 4 && V[0].lset == f[0] && V[3].lset == f[3]
    requires CuttablePairs(V, Range(0, 4), [(0, 1), (0, 2), (0, 3)])
    requires X == BaseCoordinates(4) + CutCoordinates(V, BaseCoordinates(4), Range(0, 4), [(0, 1), (0, 2), (0, 3)])
    ensures f[0] != f[3] && X[6] == CutPoint(Zero, E3, f[0], f[3])
  {
    CutCoordinatesIndex(V, BaseCoordinates(4), Range(0, 4), [(0, 1), (0, 2), (0, 3)], X, 2);
    assert Range(0, 4)[0] == 0 && Range(0, 4)[3] == 3;
  }

  lemma {:induction false} TetApex0Value2(a: real, b: real, x: Vec3)
    requires a != b && x == CutPoint(Zero, E3, a, b)
    ensures x == Vec3(0.0, 0.0, a / (a - b))
  {
    TetApex0Lerp2(a / (a - b));
  }

  lemma {:induction false} TetApex0Coordinates(f: seq<real>, V: seq<Vertex>, dt: DomainType, X: seq<Vec3>)
    returns (t01: real, t02: real, t03: real, x0: Vec3, x1: Vec3, x2: Vec3, x3: Vec3, x4: Vec3, x5: Vec3, x6: Vec3)
    requires |f| == 4 && |V| == 4 && forall i :: 0 <= i < 4 ==> V[i].lset == f[i]
    requires dt != IF && IsRelevant(dt, f[0]) && IsRelevant(Opposite(dt), f[1]) && IsRelevant(Opposite(dt), f[2]) && IsRelevant(Opposite(dt), f[3])
    requires CuttablePairs(V, Range(0, 4), [(0, 1), (0, 2), (0, 3)])
    requires X == BaseCoordinates(4) + CutCoordinates(V, BaseCoordinates(4), Range(0, 4), [(0, 1), (0, 2), (0, 3)])
    ensures |X| == 7 && X[0] == x0 && X[1] == x1 && X[2] == x2 && X[3] == x3 && X[4] == x4 && X[5] == x5 && X[6] == x6
    ensures 0.0 < t01 < 1.0 && 0.0 < t02 < 1.0 && 0.0 < t03 < 1.0
    ensures x0 == Zero && x1 == E1 && x2 == E2 && x3 == E3 && x4 == Vec3(t01, 0.0, 0.0) && x5 == Vec3(0.0, t02, 0.0) && x6 == Vec3(0.0, 0.0, t03)
  {
    TetApex0Point0(f, V, X);
    TetApex0Value0(f[0], f[1], X[4]);
    CutParameterBounds(f[0], f[1]);
    TetApex0Point1(f, V, X);
    TetApex0Value1(f[0], f[2], X[5]);
    CutParameterBounds(f[0], f[2]);
    TetApex0Point2(f, V, X);
    TetApex0Value2(f[0], f[3], X[6]);
    CutParameterBounds(f[0], f[3]);
    t01 := f[0] / (f[0] - f[1]);
    t02 := f[0] / (f[0] - f[2]);
    t03 := f[0] / (f[0] - f[3]);
    x0, x1, x2, x3, x4, x5, x6 := Zero, E1, E2, E3, Vec3(t01, 0.0, 0.0), Vec3(0.0, t02, 0.0), Vec3(0.0, 0.0, t03);
  }

  /** The measures of both domains' pieces add up to one when vertex 0 alone lies in domain dt. */
  lemma {:induction false} TetApex0Measure(f: seq<real>, V: seq<Vertex>, store: VertexStore, dt: DomainType, X: seq<Vec3>)
    requires |f| == 4 && |V| == 4 && forall i :: 0 <= i < 4 ==> V[i].lset == f[i]
    requires dt != IF && TestsAgree(f)
    requires IsRelevant(dt, f[0]) && IsRelevant(Opposite(dt), f[1]) && IsRelevant(Opposite(dt), f[2]) && IsRelevant(Opposite(dt), f[3])
    requires CuttablePairs(V, Range(0, 4), CutPairs(f))
    requires X == BaseCoordinates(4) + CutCoordinates(V, BaseCoordinates(4), Range(0, 4), CutPairs(f))
    ensures |X| == 7
    ensures AllSimplexBelow([Polytope([4, 5, 6, 0], 2, store)], 3, 7) && AllSimplexBelow([Polytope([4, 5, 6, 3], 2, store), Polytope([1, 2, 3, 5], 3, store), Polytope([4, 5, 1, 3], 2, store)], 3, 7)
    ensures Sum(Orientations(X, [Polytope([4, 5, 6, 0], 2, store)], 3)) + Sum(Orientations(X, [Polytope([4, 5, 6, 3], 2, store), Polytope([1, 2, 3, 5], 3, store), Polytope([4, 5, 1, 3], 2, store)], 3)) == 1.0
  {
    TetApex0Cut(f, dt);
    var t01, t02, t03, x0, x1, x2, x3, x4, x5, x6 := TetApex0Coordinates(f, V, dt, X);
    TetApex0Orientations(x0, x1, x2, x3, x4, x5, x6, t01, t02, t03);
    TetApex0InsideSum(X, store, x0, x1, x2, x3, x4, x5, x6,
      Abs(Orient3(x4, x5, x6, x0)));
    TetApex0OutsideSum(X, store, x0, x1, x2, x3, x4, x5, x6,
      Abs(Orient3(x4, x5, x6, x3)),
      Abs(Orient3(x1, x2, x3, x5)),
      Abs(Orient3(x4, x5, x1, x3)));
  }

  /**
   * When vertex 0 alone lies in domain dt, the table's pieces of both
   * domains have absolute orientations that add up to one.
   */
  lemma {:induction false} TetApex0(f: seq<real>, V: seq<Vertex>, store: VertexStore, dt: DomainType, X: seq<Vec3>)
    requires |f| == 4 && |V| == 4 && forall i :: 0 <= i < 4 ==> V[i].lset == f[i]
    requires dt != IF && TestsAgree(f)
    requires IsRelevant(dt, f[0]) && IsRelevant(Opposite(dt), f[1]) && IsRelevant(Opposite(dt), f[2]) && IsRelevant(Opposite(dt), f[3])
    requires CuttablePairs(V, Range(0, 4), CutPairs(f))
    requires X == BaseCoordinates(4) + CutCoordinates(V, BaseCoordinates(4), Range(0, 4), CutPairs(f))
    ensures CutPairs(f) == [(0, 1), (0, 2), (0, 3)] && |X| == 7
    ensures Decompose(dt, 3, f, Polytope(Range(4, 3), 2, store)) == Ok([Polytope([4, 5, 6, 0], 2, store)])
    ensures Decompose(Opposite(dt), 3, f, Polytope(Range(4, 3), 2, store)) == Ok([Polytope([4, 5, 6, 3], 2, store), Polytope([1, 2, 3, 5], 3, store), Polytope([4, 5, 1, 3], 2, store)])
    ensures AllSimplexBelow([Polytope([4, 5, 6, 0], 2, store)], 3, 7) && AllSimplexBelow([Polytope([4, 5, 6, 3], 2, store), Polytope([1, 2, 3, 5], 3, store), Polytope([4, 5, 1, 3], 2, store)], 3, 7)
    ensures Sum(Orientations(X, [Polytope([4, 5, 6, 0], 2, store)], 3)) + Sum(Orientations(X, [Polytope([4, 5, 6, 3], 2, store), Polytope([1, 2, 3, 5], 3, store), Polytope([4, 5, 1, 3], 2, store)], 3)) == 1.0
  {
    TetApex0Pieces(f, store, dt);
    TetApex0Measure(f, V, store, dt, X);
  }

  /** The same, stated for the positive and the negative domain. */
  lemma {:induction false} TetApex0Tiles(f: seq<real>, V: seq<Vertex>, store: VertexStore, dt: DomainType, X: seq<Vec3>)
    requires |f| == 4 && |V| == 4 && forall i :: 0 <= i < 4 ==> V[i].lset == f[i]
    requires dt != IF && TestsAgree(f)
    requires IsRelevant(dt, f[0]) && IsRelevant(Opposite(dt), f[1]) && IsRelevant(Opposite(dt), f[2]) && IsRelevant(Opposite(dt), f[3])
    requires CuttablePairs(V, Range(0, 4), CutPairs(f))
    requires X == BaseCoordinates(4) + CutCoordinates(V, BaseCoordinates(4), Range(0, 4), CutPairs(f))
    ensures PiecesTile(f, 3, Polytope(Range(4, |CutPairs(f)|), 2, store), X)
  {
    TetApex0Pieces(f, store, dt);
    TetApex0Measure(f, V, store, dt, X);
    ListsTile(f, 3, Polytope(Range(4, 3), 2, store), X, dt, [Polytope([4, 5, 6, 0], 2, store)], [Polytope([4, 5, 6, 3], 2, store), Polytope([1, 2, 3, 5], 3, store), Polytope([4, 5, 1, 3], 2, store)]);
  }

  /** The cut pairs when vertex 1 alone lies in domain dt. */
  lemma {:induction false} TetApex1Cut(f: seq<real>, dt: DomainType)
    requires |f| == 4 && dt != IF && TestsAgree(f)
    requires IsRelevant(dt, f[1]) && IsRelevant(Opposite(dt), f[0]) && IsRelevant(Opposite(dt), f[2]) && IsRelevant(Opposite(dt), f[3])
    ensures CutPairs(f) == [(0, 1), (1, 2), (1, 3)]
  {
    CutPairsAgree(f);
    StrictPairsOfFour(f);
    assert PairIf(f, 0, 1) == [(0, 1)];
    assert PairIf(f, 0, 2) == [];
    assert PairIf(f, 0, 3) == [];
    assert PairIf(f, 1, 2) == [(1, 2)];
    assert PairIf(f, 1, 3) == [(1, 3)];
    assert PairIf(f, 2, 3) == [];
  }

  /** The relevant vertices of both domains when vertex 1 alone lies in domain dt. */
  lemma {:induction false} TetApex1Relevant(f: seq<real>, dt: DomainType)
    requires |f| == 4 && dt != IF
    requires IsRelevant(dt, f[1]) && IsRelevant(Opposite(dt), f[0]) && IsRelevant(Opposite(dt), f[2]) && IsRelevant(Opposite(dt), f[3])
    ensures RelevantUpTo(dt, f, 4) == [1] && RelevantUpTo(Opposite(dt), f, 4) == [0, 2, 3]
  {
    RelevantAre1Of4(dt, f);
    RelevantAre023Of4(Opposite(dt), f);
  }

  lemma {:induction false} TetApex1InsideTable(store: VertexStore)
    ensures VolumeTable(3, Polytope(Range(4, 3), 2, store), [1]) == Ok([Polytope([4, 5, 6, 1], 2, store)])
  {
    assert Range(4, 3) == [4, 5, 6];
    assert [4, 5, 6] + [1] == [4, 5, 6, 1];
  }

  lemma {:induction false} TetApex1Inside(f: seq<real>, store: VertexStore, dt: DomainType)
    requires |f| == 4 && dt != IF
    requires IsRelevant(dt, f[1]) && IsRelevant(Opposite(dt), f[0]) && IsRelevant(Opposite(dt), f[2]) && IsRelevant(Opposite(dt), f[3])
    ensures Decompose(dt, 3, f, Polytope(Range(4, 3), 2, store)) == Ok([Polytope([4, 5, 6, 1], 2, store)])
  {
    TetApex1Relevant(f, dt);
    DecomposeVolume(dt, 3, f, Polytope(Range(4, 3), 2, store), [1]);
    TetApex1InsideTable(store);
  }

  lemma {:induction false} TetApex1OutsideTable(store: VertexStore)
    ensures VolumeTable(3, Polytope(Range(4, 3), 2, store), [0, 2, 3]) == Ok([Polytope([4, 5, 6, 3], 2, store), Polytope([0, 2, 3, 5], 3, store), Polytope([4, 5, 0, 3], 2, store)])
  {
    assert Range(4, 3) == [4, 5, 6];
    assert [4, 5, 6] + [3] == [4, 5, 6, 3];
    assert [0, 2, 3] + [5] == [0, 2, 3, 5];
    assert [4, 5, 6][2 := 0] + [3] == [4, 5, 0, 3];
  }

  lemma {:induction false} TetApex1Outside(f: seq<real>, store: VertexStore, dt: DomainType)
    requires |f| == 4 && dt != IF
    requires IsRelevant(dt, f[1]) && IsRelevant(Opposite(dt), f[0]) && IsRelevant(Opposite(dt), f[2]) && IsRelevant(Opposite(dt), f[3])
    ensures Decompose(Opposite(dt), 3, f, Polytope(Range(4, 3), 2, store)) == Ok([Polytope([4, 5, 6, 3], 2, store), Polytope([0, 2, 3, 5], 3, store), Polytope([4, 5, 0, 3], 2, store)])
  {
    TetApex1Relevant(f, dt);
    DecomposeVolume(Opposite(dt), 3, f, Polytope(Range(4, 3), 2, store), [0, 2, 3]);
    TetApex1OutsideTable(store);
  }

  /** The cut and the table entries when vertex 1 alone lies in domain dt. */
  lemma {:induction false} TetApex1Pieces(f: seq<real>, store: VertexStore, dt: DomainType)
    requires |f| == 4 && dt != IF && TestsAgree(f)
    requires IsRelevant(dt, f[1]) && IsRelevant(Opposite(dt), f[0]) && IsRelevant(Opposite(dt), f[2]) && IsRelevant(Opposite(dt), f[3])
    ensures CutPairs(f) == [(0, 1), (1, 2), (1, 3)]
    ensures Decompose(dt, 3, f, Polytope(Range(4, 3), 2, store)) == Ok([Polytope([4, 5, 6, 1], 2, store)])
    ensures Decompose(Opposite(dt), 3, f, Polytope(Range(4, 3), 2, store)) == Ok([Polytope([4, 5, 6, 3], 2, store), Polytope([0, 2, 3, 5], 3, store), Polytope([4, 5, 0, 3], 2, store)])
  {
    TetApex1Cut(f, dt);
    TetApex1Inside(f, store, dt);
    TetApex1Outside(f, store, dt);
  }

  lemma TetApex1Orient0(t01: real, t12: real, t13: real)
    ensures Orient3(Vec3(t01, 0.0, 0.0), Vec3(1.0 - t12, t12, 0.0), Vec3(1.0 - t13, 0.0, t13), E1) == -((1.0 - t01) * t12 * t13)
  {
    assert Orient3(Vec3(t01, 0.0, 0.0), Vec3(1.0 - t12, t12, 0.0), Vec3(1.0 - t13, 0.0, t13), E1) == -t12 * t13 + t01 * t12 * t13 by {
      assert Sub(E1, Vec3(t01, 0.0, 0.0)) == Vec3(1.0 - t01, 0.0, 0.0);
      assert Sub(Vec3(1.0 - t13, 0.0, t13), Vec3(t01, 0.0, 0.0)) == Vec3(1.0 - t01 - t13, 0.0, t13);
      assert Sub(Vec3(1.0 - t12, t12, 0.0), Vec3(t01, 0.0, 0.0)) == Vec3(1.0 - t01 - t12, t12, 0.0);
      assert Orient3(Vec3(t01, 0.0, 0.0), Vec3(1.0 - t12, t12, 0.0), Vec3(1.0 - t13, 0.0, t13), E1) == (1.0 - t01) * -(t13 * t12);
    }
  }

  lemma TetApex1Piece0(t01: real, t12: real, t13: real, p: real, o: real)
    requires 0.0 < t01 < 1.0 && 0.0 < t12 < 1.0 && 0.0 < t13 < 1.0 && p == (1.0 - t01) * t12 * t13 && o == -p
    ensures p > 0.0 && Abs(o) == p
  {
    PositiveThreeFactors((1.0 - t01), t12, t13, p);
  }

  lemma TetApex1Orient1(t01: real, t12: real, t13: real)
    ensures Orient3(Vec3(t01, 0.0, 0.0), Vec3(1.0 - t12, t12, 0.0), Vec3(1.0 - t13, 0.0, t13), E3) == (1.0 - t01) * t12 * (1.0 - t13)
  {
    assert Orient3(Vec3(t01, 0.0, 0.0), Vec3(1.0 - t12, t12, 0.0), Vec3(1.0 - t13, 0.0, t13), E3) == t12 - t01 * t12 - t12 * t13 + t01 * t12 * t13 by {
      assert Sub(E3, Vec3(t01, 0.0, 0.0)) == Vec3(-t01, 0.0, 1.0);
      assert Sub(Vec3(1.0 - t13, 0.0, t13), Vec3(t01, 0.0, 0.0)) == Vec3(1.0 - t01 - t13, 0.0, t13);
      assert Sub(Vec3(1.0 - t12, t12, 0.0), Vec3(t01, 0.0, 0.0)) == Vec3(1.0 - t01 - t12, t12, 0.0);
      assert Orient3(Vec3(t01, 0.0, 0.0), Vec3(1.0 - t12, t12, 0.0), Vec3(1.0 - t13, 0.0, t13), E3) == (-t01) * -(t13 * t12) + 1.0 * ((1.0 - t01 - t13) * t12);
    }
  }

  lemma TetApex1Piece1(t01: real, t12: real, t13: real, p: real, o: real)
    requires 0.0 < t01 < 1.0 && 0.0 < t12 < 1.0 && 0.0 < t13 < 1.0 && p == (1.0 - t01) * t12 * (1.0 - t13) && o == p
    ensures p > 0.0 && Abs(o) == p
  {
    PositiveThreeFactors((1.0 - t01), t12, (1.0 - t13), p);
  }

  lemma TetApex1Orient2(t01: real, t12: real, t13: real)
    ensures Orient3(Zero, E2, E3, Vec3(1.0 - t12, t12, 0.0)) == -(1.0 - t12)
  {
    assert Orient3(Zero, E2, E3, Vec3(1.0 - t12, t12, 0.0)) == -1.0 + t12 by {
      assert Sub(Vec3(1.0 - t12, t12, 0.0), Zero) == Vec3(1.0 - t12, t12, 0.0);
      assert Sub(E3, Zero) == Vec3(0.0, 0.0, 1.0);
      assert Sub(E2, Zero) == Vec3(0.0, 1.0, 0.0);
      assert Orient3(Zero, E2, E3, Vec3(1.0 - t12, t12, 0.0)) == (1.0 - t12) * -(1.0 * 1.0);
    }
  }

  lemma TetApex1Piece2(t01: real, t12: real, t13: real, p: real, o: real)
    requires 0.0 < t01 < 1.0 && 0.0 < t12 < 1.0 && 0.0 < t13 < 1.0 && p == (1.0 - t12) && o == -p
    ensures p > 0.0 && Abs(o) == p
  {
  }

  lemma TetApex1Orient3(t01: real, t12: real, t13: real)
    ensures Orient3(Vec3(t01, 0.0, 0.0), Vec3(1.0 - t12, t12, 0.0), Zero, E3) == -(t01 * t12)
  {
    assert Orient3(Vec3(t01, 0.0, 0.0), Vec3(1.0 - t12, t12, 0.0), Zero, E3) == -t01 * t12 by {
      assert Sub(E3, Vec3(t01, 0.0, 0.0)) == Vec3(-t01, 0.0, 1.0);
      assert Sub(Zero, Vec3(t01, 0.0, 0.0)) == Vec3(-t01, 0.0, 0.0);
      assert Sub(Vec3(1.0 - t12, t12, 0.0), Vec3(t01, 0.0, 0.0)) == Vec3(1.0 - t01 - t12, t12, 0.0);
      assert Orient3(Vec3(t01, 0.0, 0.0), Vec3(1.0 - t12, t12, 0.0), Zero, E3) == 1.0 * ((-t01) * t12);
    }
  }

  lemma TetApex1Piece3(t01: real, t12: real, t13: real, p: real, o: real)
    requires 0.0 < t01 < 1.0 && 0.0 < t12 < 1.0 && 0.0 < t13 < 1.0 && p == t01 * t12 && o == -p
    ensures p > 0.0 && Abs(o) == p
  {
    PositiveTwoFactors(t01, t12, p);
  }

  lemma {:induction false} TetApex1Identity(t01: real, t12: real, t13: real)
    ensures (1.0 - t01) * t12 * t13 + (1.0 - t01) * t12 * (1.0 - t13) + (1.0 - t12) + t01 * t12 == 1.0
  {
  }

  lemma {:induction false} TetApex1At0(t01: real, t12: real, t13: real, o: real)
    requires 0.0 < t01 < 1.0 && 0.0 < t12 < 1.0 && 0.0 < t13 < 1.0 && o == Abs(Orient3(Vec3(t01, 0.0, 0.0), Vec3(1.0 - t12, t12, 0.0), Vec3(1.0 - t13, 0.0, t13), E1))
    ensures o == (1.0 - t01) * t12 * t13
  {
    TetApex1Orient0(t01, t12, t13);
    TetApex1Piece0(t01, t12, t13, (1.0 - t01) * t12 * t13, Orient3(Vec3(t01, 0.0, 0.0), Vec3(1.0 - t12, t12, 0.0), Vec3(1.0 - t13, 0.0, t13), E1));
  }

  lemma {:induction false} TetApex1At1(t01: real, t12: real, t13: real, o: real)
    requires 0.0 < t01 < 1.0 && 0.0 < t12 < 1.0 && 0.0 < t13 < 1.0 && o == Abs(Orient3(Vec3(t01, 0.0, 0.0), Vec3(1.0 - t12, t12, 0.0), Vec3(1.0 - t13, 0.0, t13), E3))
    ensures o == (1.0 - t01) * t12 * (1.0 - t13)
  {
    TetApex1Orient1(t01, t12, t13);
    TetApex1Piece1(t01, t12, t13, (1.0 - t01) * t12 * (1.0 - t13), Orient3(Vec3(t01, 0.0, 0.0), Vec3(1.0 - t12, t12, 0.0), Vec3(1.0 - t13, 0.0, t13), E3));
  }

  lemma {:induction false} TetApex1At2(t01: real, t12: real, t13: real, o: real)
    requires 0.0 < t01 < 1.0 && 0.0 < t12 < 1.0 && 0.0 < t13 < 1.0 && o == Abs(Orient3(Zero, E2, E3, Vec3(1.0 - t12, t12, 0.0)))
    ensures o == (1.0 - t12)
  {
    TetApex1Orient2(t01, t12, t13);
    TetApex1Piece2(t01, t12, t13, (1.0 - t12), Orient3(Zero, E2, E3, Vec3(1.0 - t12, t12, 0.0)));
  }

  lemma {:induction false} TetApex1At3(t01: real, t12: real, t13: real, o: real)
    requires 0.0 < t01 < 1.0 && 0.0 < t12 < 1.0 && 0.0 < t13 < 1.0 && o == Abs(Orient3(Vec3(t01, 0.0, 0.0), Vec3(1.0 - t12, t12, 0.0), Zero, E3))
    ensures o == t01 * t12
  {
    TetApex1Orient3(t01, t12, t13);
    TetApex1Piece3(t01, t12, t13, t01 * t12, Orient3(Vec3(t01, 0.0, 0.0), Vec3(1.0 - t12, t12, 0.0), Zero, E3));
  }

  lemma {:induction false} TetApex1InsideSum(X: seq<Vec3>, store: VertexStore,
    x0: Vec3, x1: Vec3, x2: Vec3, x3: Vec3, x4: Vec3, x5: Vec3, x6: Vec3,
    v0: real)
    requires |X| == 7 && X[0] == x0 && X[1] == x1 && X[2] == x2 && X[3] == x3 && X[4] == x4 && X[5] == x5 && X[6] == x6
    requires v0 == Abs(Orient3(x4, x5, x6, x1))
    ensures AllSimplexBelow([Polytope([4, 5, 6, 1], 2, store)], 3, 7)
    ensures Sum(Orientations(X, [Polytope([4, 5, 6, 1], 2, store)], 3)) == v0
  {
    var pieces := [Polytope([4, 5, 6, 1], 2, store)];
    assert AllSimplexBelow(pieces, 3, |X|);
    var os := Orientations(X, pieces, 3);
    assert pieces[0].ia == [4, 5, 6, 1];
    TetOrientationAt(X, pieces, 0, 4, 5, 6, 1, os[0]);
    SumOfOne(os);
  }

  lemma {:induction false} TetApex1OutsideSum(X: seq<Vec3>, store: VertexStore,
    x0: Vec3, x1: Vec3, x2: Vec3, x3: Vec3, x4: Vec3, x5: Vec3, x6: Vec3,
    v1: real, v2: real, v3: real)
    requires |X| == 7 && X[0] == x0 && X[1] == x1 && X[2] == x2 && X[3] == x3 && X[4] == x4 && X[5] == x5 && X[6] == x6
    requires v1 == Abs(Orient3(x4, x5, x6, x3))
    requires v2 == Abs(Orient3(x0, x2, x3, x5))
    requires v3 == Abs(Orient3(x4, x5, x0, x3))
    ensures AllSimplexBelow([Polytope([4, 5, 6, 3], 2, store), Polytope([0, 2, 3, 5], 3, store), Polytope([4, 5, 0, 3], 2, store)], 3, 7)
    ensures Sum(Orientations(X, [Polytope([4, 5, 6, 3], 2, store), Polytope([0, 2, 3, 5], 3, store), Polytope([4, 5, 0, 3], 2, store)], 3)) == v1 + v2 + v3
  {
    var pieces := [Polytope([4, 5, 6, 3], 2, store), Polytope([0, 2, 3, 5], 3, store), Polytope([4, 5, 0, 3], 2, store)];
    assert AllSimplexBelow(pieces, 3, |X|);
    var os := Orientations(X, pieces, 3);
    assert pieces[0].ia == [4, 5, 6, 3];
    TetOrientationAt(X, pieces, 0, 4, 5, 6, 3, os[0]);
    assert pieces[1].ia == [0, 2, 3, 5];
    TetOrientationAt(X, pieces, 1, 0, 2, 3, 5, os[1]);
    assert pieces[2].ia == [4, 5, 0, 3];
    TetOrientationAt(X, pieces, 2, 4, 5, 0, 3, os[2]);
    SumOfThree(os);
  }

  lemma {:induction false} TetApex1Total(t01: real, t12: real, t13: real, v0: real, v1: real, v2: real, v3: real)
    requires 0.0 < t01 < 1.0 && 0.0 < t12 < 1.0 && 0.0 < t13 < 1.0
    requires v0 == Abs(Orient3(Vec3(t01, 0.0, 0.0), Vec3(1.0 - t12, t12, 0.0), Vec3(1.0 - t13, 0.0, t13), E1))
    requires v1 == Abs(Orient3(Vec3(t01, 0.0, 0.0), Vec3(1.0 - t12, t12, 0.0), Vec3(1.0 - t13, 0.0, t13), E3))
    requires v2 == Abs(Orient3(Zero, E2, E3, Vec3(1.0 - t12, t12, 0.0)))
    requires v3 == Abs(Orient3(Vec3(t01, 0.0, 0.0), Vec3(1.0 - t12, t12, 0.0), Zero, E3))
    ensures v0 + v1 + v2 + v3 == 1.0
  {
    TetApex1At0(t01, t12, t13, v0);
    TetApex1At1(t01, t12, t13, v1);
    TetApex1At2(t01, t12, t13, v2);
    TetApex1At3(t01, t12, t13, v3);
    TetApex1Identity(t01, t12, t13);
  }

  lemma {:induction false} TetApex1Orientations(x0: Vec3, x1: Vec3, x2: Vec3, x3: Vec3, x4: Vec3, x5: Vec3, x6: Vec3, t01: real, t12: real, t13: real)
    requires 0.0 < t01 < 1.0 && 0.0 < t12 < 1.0 && 0.0 < t13 < 1.0
    requires x0 == Zero && x1 == E1 && x2 == E2 && x3 == E3 && x4 == Vec3(t01, 0.0, 0.0) && x5 == Vec3(1.0 - t12, t12, 0.0) && x6 == Vec3(1.0 - t13, 0.0, t13)
    ensures Abs(Orient3(x4, x5, x6, x1)) + Abs(Orient3(x4, x5, x6, x3)) + Abs(Orient3(x0, x2, x3, x5)) + Abs(Orient3(x4, x5, x0, x3)) == 1.0
  {
    TetApex1Total(t01, t12, t13, Abs(Orient3(x4, x5, x6, x1)), Abs(Orient3(x4, x5, x6, x3)), Abs(Orient3(x0, x2, x3, x5)), Abs(Orient3(x4, x5, x0, x3)));
  }

  lemma {:induction false} TetApex1Lerp0(t01: real)
    ensures Add(Zero, Scale(t01, Sub(E1, Zero))) == Vec3(t01, 0.0, 0.0)
  {
  }

  lemma {:induction false} TetApex1Lerp1(t12: real)
    ensures Add(E1, Scale(t12, Sub(E2, E1))) == Vec3(1.0 - t12, t12, 0.0)
  {
  }

  lemma {:induction false} TetApex1Lerp2(t13: real)
    ensures Add(E1, Scale(t13, Sub(E3, E1))) == Vec3(1.0 - t13, 0.0, t13)
  {
  }

  lemma {:induction false} TetApex1Point0(f: seq<real>, V: seq<Vertex>, X: seq<Vec3>)
    requires |f| == 4 && |V| == 4 && V[0].lset == f[0] && V[1].lset == f[1]
    requires CuttablePairs(V, Range(0, 4), [(0, 1), (1, 2), (1, 3)])
    requires X == BaseCoordinates(4) + CutCoordinates(V, BaseCoordinates(4), Range(0, 4), [(0, 1), (1, 2), (1, 3)])
    ensures f[0] != f[1] && X[4] == CutPoint(Zero, E1, f[0], f[1])
  {
    CutCoordinatesIndex(V, BaseCoordinates(4), Range(0, 4), [(0, 1), (1, 2), (1, 3)], X, 0);
    assert Range(0, 4)[0] == 0 && Range(0, 4)[1] == 1;
  }

  lemma {:induction false} TetApex1Value0(a: real, b: real, x: Vec3)
    requires a != b && x == CutPoint(Zero, E1, a, b)
    ensures x == Vec3(a / (a - b), 0.0, 0.0)
  {
    TetApex1Lerp0(a / (a - b));
  }

  lemma {:induction false} TetApex1Point1(f: seq<real>, V: seq<Vertex>, X: seq<Vec3>)
    requires |f| == 4 && |V| == 4 && V[1].lset == f[1] && V[2].lset == f[2]
    requires CuttablePairs(V, Range(0, 4), [(0, 1), (1, 2), (1, 3)])
    requires X == BaseCoordinates(4) + CutCoordinates(V, BaseCoordinates(4), Range(0, 4), [(0, 1), (1, 2), (1, 3)])
    ensures f[1] != f[2] && X[5] == CutPoint(E1, E2, f[1], f[2])
  {
    CutCoordinatesIndex(V, BaseCoordinates(4), Range(0, 4), [(0, 1), (1, 2), (1, 3)], X, 1);
    assert Range(0, 4)[1] == 1 && Range(0, 4)[2] == 2;
  }

  lemma {:induction false} TetApex1Value1(a: real, b: real, x: Vec3)
    requires a != b && x == CutPoint(E1, E2, a, b)
    ensures x == Vec3(1.0 - a / (a - b), a / (a - b), 0.0)
  {
    TetApex1Lerp1(a / (a - b));
  }

  lemma {:induction false} TetApex1Point2(f: seq<real>, V: seq<Vertex>, X: seq<Vec3>)
    requires |f| == 4 && |V| == 4 && V[1].lset == f[1] && V[3].lset == f[3]
    requires CuttablePairs(V, Range(0, 4), [(0, 1), (1, 2), (1, 3)])
    requires X == BaseCoordinates(4) + CutCoordinates(V, BaseCoordinates(4), Range(0, 4), [(0, 1), (1, 2), (1, 3)])
    ensures f[1] != f[3] && X[6] == CutPoint(E1, E3, f[1], f[3])
  {
    CutCoordinatesIndex(V, BaseCoordinates(4), Range(0, 4), [(0, 1), (1, 2), (1, 3)], X, 2);
    assert Range(0, 4)[1] == 1 && Range(0, 4)[3] == 3;
  }

  lemma {:induction false} TetApex1Value2(a: real, b: real, x: Vec3)
    requires a != b && x == CutPoint(E1, E3, a, b)
    ensures x == Vec3(1.0 - a / (a - b), 0.0, a / (a - b))
  {
    TetApex1Lerp2(a / (a - b));
  }

  lemma {:induction false} TetApex1Coordinates(f: seq<real>, V: seq<Vertex>, dt: DomainType, X: seq<Vec3>)
    returns (t01: real, t12: real, t13: real, x0: Vec3, x1: Vec3, x2: Vec3, x3: Vec3, x4: Vec3, x5: Vec3, x6: Vec3)
    requires |f| == 4 && |V| == 4 && forall i :: 0 <= i < 4 ==> V[i].lset == f[i]
    requires dt != IF && IsRelevant(dt, f[1]) && IsRelevant(Opposite(dt), f[0]) && IsRelevant(Opposite(dt), f[2]) && IsRelevant(Opposite(dt), f[3])
    requires CuttablePairs(V, Range(0, 4), [(0, 1), (1, 2), (1, 3)])
    requires X == BaseCoordinates(4) + CutCoordinates(V, BaseCoordinates(4), Range(0, 4), [(0, 1), (1, 2), (1, 3)])
    ensures |X| == 7 && X[0] == x0 && X[1] == x1 && X[2] == x2 && X[3] == x3 && X[4] == x4 && X[5] == x5 && X[6] == x6
    ensures 0.0 < t01 < 1.0 && 0.0 < t12 < 1.0 && 0.0 < t13 < 1.0
    ensures x0 == Zero && x1 == E1 && x2 == E2 && x3 == E3 && x4 == Vec3(t01, 0.0, 0.0) && x5 == Vec3(1.0 - t12, t12, 0.0) && x6 == Vec3(1.0 - t13, 0.0, t13)
  {
    TetApex1Point0(f, V, X);
    TetApex1Value0(f[0], f[1], X[4]);
    CutParameterBounds(f[0], f[1]);
    TetApex1Point1(f, V, X);
    TetApex1Value1(f[1], f[2], X[5]);
    CutParameterBounds(f[1], f[2]);
    TetApex1Point2(f, V, X);
    TetApex1Value2(f[1], f[3], X[6]);
    CutParameterBounds(f[1], f[3]);
    t01 := f[0] / (f[0] - f[1]);
    t12 := f[1] / (f[1] - f[2]);
    t13 := f[1] / (f[1] - f[3]);
    x0, x1, x2, x3, x4, x5, x6 := Zero, E1, E2, E3, Vec3(t01, 0.0, 0.0), Vec3(1.0 - t12, t12, 0.0), Vec3(1.0 - t13, 0.0, t13);
  }

  /** The measures of both domains' pieces add up to one when vertex 1 alone lies in domain dt. */
  lemma {:induction false} TetApex1Measure(f: seq<real>, V: seq<Vertex>, store: VertexStore, dt: DomainType, X: seq<Vec3>)
    requires |f| == 4 && |V| == 4 && forall i :: 0 <= i < 4 ==> V[i].lset == f[i]
    requires dt != IF && TestsAgree(f)
    requires IsRelevant(dt, f[1]) && IsRelevant(Opposite(dt), f[0]) && IsRelevant(Opposite(dt), f[2]) && IsRelevant(Opposite(dt), f[3])
    requires CuttablePairs(V, Range(0, 4), CutPairs(f))
    requires X == BaseCoordinates(4) + CutCoordinates(V, BaseCoordinates(4), Range(0, 4), CutPairs(f))
    ensures |X| == 7
    ensures AllSimplexBelow([Polytope([4, 5, 6, 1], 2, store)], 3, 7) && AllSimplexBelow([Polytope([4, 5, 6, 3], 2, store), Polytope([0, 2, 3, 5], 3, store), Polytope([4, 5, 0, 3], 2, store)], 3, 7)
    ensures Sum(Orientations(X, [Polytope([4, 5, 6, 1], 2, store)], 3)) + Sum(Orientations(X, [Polytope([4, 5, 6, 3], 2, store), Polytope([0, 2, 3, 5], 3, store), Polytope([4, 5, 0, 3], 2, store)], 3)) == 1.0
  {
    TetApex1Cut(f, dt);
    var t01, t12, t13, x0, x1, x2, x3, x4, x5, x6 := TetApex1Coordinates(f, V, dt, X);
    TetApex1Orientations(x0, x1, x2, x3, x4, x5, x6, t01, t12, t13);
    TetApex1InsideSum(X, store, x0, x1, x2, x3, x4, x5, x6,
      Abs(Orient3(x4, x5, x6, x1)));
    TetApex1OutsideSum(X, store, x0, x1, x2, x3, x4, x5, x6,
      Abs(Orient3(x4, x5, x6, x3)),
      Abs(Orient3(x0, x2, x3, x5)),
      Abs(Orient3(x4, x5, x0, x3)));
  }

  /**
   * When vertex 1 alone lies in domain dt, the table's pieces of both
   * domains have absolute orientations that add up to one.
   */
  lemma {:induction false} TetApex1(f: seq<real>, V: seq<Vertex>, store: VertexStore, dt: DomainType, X: seq<Vec3>)
    requires |f| == 4 && |V| == 4 && forall i :: 0 <= i < 4 ==> V[i].lset == f[i]
    requires dt != IF && TestsAgree(f)
    requires IsRelevant(dt, f[1]) && IsRelevant(Opposite(dt), f[0]) && IsRelevant(Opposite(dt), f[2]) && IsRelevant(Opposite(dt), f[3])
    requires CuttablePairs(V, Range(0, 4), CutPairs(f))
    requires X == BaseCoordinates(4) + CutCoordinates(V, BaseCoordinates(4), Range(0, 4), CutPairs(f))
    ensures CutPairs(f) == [(0, 1), (1, 2), (1, 3)] && |X| == 7
    ensures Decompose(dt, 3, f, Polytope(Range(4, 3), 2, store)) == Ok([Polytope([4, 5, 6, 1], 2, store)])
    ensures Decompose(Opposite(dt), 3, f, Polytope(Range(4, 3), 2, store)) == Ok([Polytope([4, 5, 6, 3], 2, store), Polytope([0, 2, 3, 5], 3, store), Polytope([4, 5, 0, 3], 2, store)])
    ensures AllSimplexBelow([Polytope([4, 5, 6, 1], 2, store)], 3, 7) && AllSimplexBelow([Polytope([4, 5, 6, 3], 2, store), Polytope([0, 2, 3, 5], 3, store), Polytope([4, 5, 0, 3], 2, store)], 3, 7)
    ensures Sum(Orientations(X, [Polytope([4, 5, 6, 1], 2, store)], 3)) + Sum(Orientations(X, [Polytope([4, 5, 6, 3], 2, store), Polytope([0, 2, 3, 5], 3, store), Polytope([4, 5, 0, 3], 2, store)], 3)) == 1.0
  {
    TetApex1Pieces(f, store, dt);
    TetApex1Measure(f, V, store, dt, X);
  }

  /** The same, stated for the positive and the negative domain. */
  lemma {:induction false} TetApex1Tiles(f: seq<real>, V: seq<Vertex>, store: VertexStore, dt: DomainType, X: seq<Vec3>)
    requires |f| == 4 && |V| == 4 && forall i :: 0 <= i < 4 ==> V[i].lset == f[i]
    requires dt != IF && TestsAgree(f)
    requires IsRelevant(dt, f[1]) && IsRelevant(Opposite(dt), f[0]) && IsRelevant(Opposite(dt), f[2]) && IsRelevant(Opposite(dt), f[3])
    requires CuttablePairs(V, Range(0, 4), CutPairs(f))
    requires X == BaseCoordinates(4) + CutCoordinates(V, BaseCoordinates(4), Range(0, 4), CutPairs(f))
    ensures PiecesTile(f, 3, Polytope(Range(4, |CutPairs(f)|), 2, store), X)
  {
    TetApex1Pieces(f, store, dt);
    TetApex1Measure(f, V, store, dt, X);
    ListsTile(f, 3, Polytope(Range(4, 3), 2, store), X, dt, [Polytope([4, 5, 6, 1], 2, store)], [Polytope([4, 5, 6, 3], 2, store), Polytope([0, 2, 3, 5], 3, store), Polytope([4, 5, 0, 3], 2, store)]);
  }

  /** The cut pairs when vertex 2 alone lies in domain dt. */
  lemma {:induction false} TetApex2Cut(f: seq<real>, dt: DomainType)
    requires |f| == 4 && dt != IF && TestsAgree(f)
    requires IsRelevant(dt, f[2]) && IsRelevant(Opposite(dt), f[0]) && IsRelevant(Opposite(dt), f[1]) && IsRelevant(Opposite(dt), f[3])
    ensures CutPairs(f) == [(0, 2), (1, 2), (2, 3)]
  {
    CutPairsAgree(f);
    StrictPairsOfFour(f);
    assert PairIf(f, 0, 1) == [];
    assert PairIf(f, 0, 2) == [(0, 2)];
    assert PairIf(f, 0, 3) == [];
    assert PairIf(f, 1, 2) == [(1, 2)];
    assert PairIf(f, 1, 3) == [];
    assert PairIf(f, 2, 3) == [(2, 3)];
  }

  /** The relevant vertices of both domains when vertex 2 alone lies in domain dt. */
  lemma {:induction false} TetApex2Relevant(f: seq<real>, dt: DomainType)
    requires |f| == 4 && dt != IF
    requires IsRelevant(dt, f[2]) && IsRelevant(Opposite(dt), f[0]) && IsRelevant(Opposite(dt), f[1]) && IsRelevant(Opposite(dt), f[3])
    ensures RelevantUpTo(dt, f, 4) == [2] && RelevantUpTo(Opposite(dt), f, 4) == [0, 1, 3]
  {
    RelevantAre2Of4(dt, f);
    RelevantAre013Of4(Opposite(dt), f);
  }

  lemma {:induction false} TetApex2InsideTable(store: VertexStore)
    ensures VolumeTable(3, Polytope(Range(4, 3), 2, store), [2]) == Ok([Polytope([4, 5, 6, 2], 2, store)])
  {
    assert Range(4, 3) == [4, 5, 6];
    assert [4, 5, 6] + [2] == [4, 5, 6, 2];
  }

  lemma {:induction false} TetApex2Inside(f: seq<real>, store: VertexStore, dt: DomainType)
    requires |f| == 4 && dt != IF
    requires IsRelevant(dt, f[2]) && IsRelevant(Opposite(dt), f[0]) && IsRelevant(Opposite(dt), f[1]) && IsRelevant(Opposite(dt), f[3])
    ensures Decompose(dt, 3, f, Polytope(Range(4, 3), 2, store)) == Ok([Polytope([4, 5, 6, 2], 2, store)])
  {
    TetApex2Relevant(f, dt);
    DecomposeVolume(dt, 3, f, Polytope(Range(4, 3), 2, store), [2]);
    TetApex2InsideTable(store);
  }

  lemma {:induction false} TetApex2OutsideTable(store: VertexStore)
    ensures VolumeTable(3, Polytope(Range(4, 3), 2, store), [0, 1, 3]) == Ok([Polytope([4, 5, 6, 3], 2, store), Polytope([0, 1, 3, 5], 3, store), Polytope([4, 5, 0, 3], 2, store)])
  {
    assert Range(4, 3) == [4, 5, 6];
    assert [4, 5, 6] + [3] == [4, 5, 6, 3];
    assert [0, 1, 3] + [5] == [0, 1, 3, 5];
    assert [4, 5, 6][2 := 0] + [3] == [4, 5, 0, 3];
  }

  lemma {:induction false} TetApex2Outside(f: seq<real>, store: VertexStore, dt: DomainType)
    requires |f| == 4 && dt != IF
    requires IsRelevant(dt, f[2]) && IsRelevant(Opposite(dt), f[0]) && IsRelevant(Opposite(dt), f[1]) && IsRelevant(Opposite(dt), f[3])
    ensures Decompose(Opposite(dt), 3, f, Polytope(Range(4, 3), 2, store)) == Ok([Polytope([4, 5, 6, 3], 2, store), Polytope([0, 1, 3, 5], 3, store), Polytope([4, 5, 0, 3], 2, store)])
  {
    TetApex2Relevant(f, dt);
    DecomposeVolume(Opposite(dt), 3, f, Polytope(Range(4, 3), 2, store), [0, 1, 3]);
    TetApex2OutsideTable(store);
  }

  /** The cut and the table entries when vertex 2 alone lies in domain dt. */
  lemma {:induction false} TetApex2Pieces(f: seq<real>, store: VertexStore, dt: DomainType)
    requires |f| == 4 && dt != IF && TestsAgree(f)
    requires IsRelevant(dt, f[2]) && IsRelevant(Opposite(dt), f[0]) && IsRelevant(Opposite(dt), f[1]) && IsRelevant(Opposite(dt), f[3])
    ensures CutPairs(f) == [(0, 2), (1, 2), (2, 3)]
    ensures Decompose(dt, 3, f, Polytope(Range(4, 3), 2, store)) == Ok([Polytope([4, 5, 6, 2], 2, store)])
    ensures Decompose(Opposite(dt), 3, f, Polytope(Range(4, 3), 2, store)) == Ok([Polytope([4, 5, 6, 3], 2, store), Polytope([0, 1, 3, 5], 3, store), Polytope([4, 5, 0, 3], 2, store)])
  {
    TetApex2Cut(f, dt);
    TetApex2Inside(f, store, dt);
    TetApex2Outside(f, store, dt);
  }

  lemma TetApex2Orient0(t02: real, t12: real, t23: real)
    ensures Orient3(Vec3(0.0, t02, 0.0), Vec3(1.0 - t12, t12, 0.0), Vec3(0.0, 1.0 - t23, t23), E2) == (1.0 - t02) * (1.0 - t12) * t23
  {
    assert Orient3(Vec3(0.0, t02, 0.0), Vec3(1.0 - t12, t12, 0.0), Vec3(0.0, 1.0 - t23, t23), E2) == t23 - t02 * t23 - t12 * t23 + t02 * t12 * t23 by {
      assert Sub(E2, Vec3(0.0, t02, 0.0)) == Vec3(0.0, 1.0 - t02, 0.0);
      assert Sub(Vec3(0.0, 1.0 - t23, t23), Vec3(0.0, t02, 0.0)) == Vec3(0.0, 1.0 - t02 - t23, t23);
      assert Sub(Vec3(1.0 - t12, t12, 0.0), Vec3(0.0, t02, 0.0)) == Vec3(1.0 - t12, -t02 + t12, 0.0);
      assert Orient3(Vec3(0.0, t02, 0.0), Vec3(1.0 - t12, t12, 0.0), Vec3(0.0, 1.0 - t23, t23), E2) == -(1.0 - t02) * -(t23 * (1.0 - t12));
    }
  }

  lemma TetApex2Piece0(t02: real, t12: real, t23: real, p: real, o: real)
    requires 0.0 < t02 < 1.0 && 0.0 < t12 < 1.0 && 0.0 < t23 < 1.0 && p == (1.0 - t02) * (1.0 - t12) * t23 && o == p
    ensures p > 0.0 && Abs(o) == p
  {
    PositiveThreeFactors((1.0 - t02), (1.0 - t12), t23, p);
  }

  lemma TetApex2Orient1(t02: real, t12: real, t23: real)
    ensures Orient3(Vec3(0.0, t02, 0.0), Vec3(1.0 - t12, t12, 0.0), Vec3(0.0, 1.0 - t23, t23), E3) == -((1.0 - t02) * (1.0 - t12) * (1.0 - t23))
  {
    assert Orient3(Vec3(0.0, t02, 0.0), Vec3(1.0 - t12, t12, 0.0), Vec3(0.0, 1.0 - t23, t23), E3) == -1.0 + t02 + t12 + t23 - t02 * t12 - t02 * t23 - t12 * t23 + t02 * t12 * t23 by {
      assert Sub(E3, Vec3(0.0, t02, 0.0)) == Vec3(0.0, -t02, 1.0);
      assert Sub(Vec3(0.0, 1.0 - t23, t23), Vec3(0.0, t02, 0.0)) == Vec3(0.0, 1.0 - t02 - t23, t23);
      assert Sub(Vec3(1.0 - t12, t12, 0.0), Vec3(0.0, t02, 0.0)) == Vec3(1.0 - t12, -t02 + t12, 0.0);
      assert Orient3(Vec3(0.0, t02, 0.0), Vec3(1.0 - t12, t12, 0.0), Vec3(0.0, 1.0 - t23, t23), E3) == -(-t02) * -(t23 * (1.0 - t12)) + 1.0 * -((1.0 - t02 - t23) * (1.0 - t12));
    }
  }

  lemma TetApex2Piece1(t02: real, t12: real, t23: real, p: real, o: real)
    requires 0.0 < t02 < 1.0 && 0.0 < t12 < 1.0 && 0.0 < t23 < 1.0 && p == (1.0 - t02) * (1.0 - t12) * (1.0 - t23) && o == -p
    ensures p > 0.0 && Abs(o) == p
  {
    PositiveThreeFactors((1.0 - t02), (1.0 - t12), (1.0 - t23), p);
  }

  lemma TetApex2Orient2(t02: real, t12: real, t23: real)
    ensures Orient3(Zero, E1, E3, Vec3(1.0 - t12, t12, 0.0)) == t12
  {
    assert Sub(Vec3(1.0 - t12, t12, 0.0), Zero) == Vec3(1.0 - t12, t12, 0.0);
    assert Sub(E3, Zero) == Vec3(0.0, 0.0, 1.0);
    assert Sub(E1, Zero) == Vec3(1.0, 0.0, 0.0);
    assert Orient3(Zero, E1, E3, Vec3(1.0 - t12, t12, 0.0)) == -t12 * -(1.0 * 1.0);
  }

  lemma TetApex2Piece2(t02: real, t12: real, t23: real, p: real, o: real)
    requires 0.0 < t02 < 1.0 && 0.0 < t12 < 1.0 && 0.0 < t23 < 1.0 && p == t12 && o == p
    ensures p > 0.0 && Abs(o) == p
  {
  }

  lemma TetApex2Orient3(t02: real, t12: real, t23: real)
    ensures Orient3(Vec3(0.0, t02, 0.0), Vec3(1.0 - t12, t12, 0.0), Zero, E3) == t02 * (1.0 - t12)
  {
    assert Orient3(Vec3(0.0, t02, 0.0), Vec3(1.0 - t12, t12, 0.0), Zero, E3) == t02 - t02 * t12 by {
      assert Sub(E3, Vec3(0.0, t02, 0.0)) == Vec3(0.0, -t02, 1.0);
      assert Sub(Zero, Vec3(0.0, t02, 0.0)) == Vec3(0.0, -t02, 0.0);
      assert Sub(Vec3(1.0 - t12, t12, 0.0), Vec3(0.0, t02, 0.0)) == Vec3(1.0 - t12, -t02 + t12, 0.0);
      assert Orient3(Vec3(0.0, t02, 0.0), Vec3(1.0 - t12, t12, 0.0), Zero, E3) == 1.0 * -((-t02) * (1.0 - t12));
    }
  }

  lemma TetApex2Piece3(t02: real, t12: real, t23: real, p: real, o: real)
    requires 0.0 < t02 < 1.0 && 0.0 < t12 < 1.0 && 0.0 < t23 < 1.0 && p == t02 * (1.0 - t12) && o == p
    ensures p > 0.0 && Abs(o) == p
  {
    PositiveTwoFactors(t02, (1.0 - t12), p);
  }

  lemma {:induction false} TetApex2Identity(t02: real, t12: real, t23: real)
    ensures (1.0 - t02) * (1.0 - t12) * t23 + (1.0 - t02) * (1.0 - t12) * (1.0 - t23) + t12 + t02 * (1.0 - t12) == 1.0
  {
  }

  lemma {:induction false} TetApex2At0(t02: real, t12: real, t23: real, o: real)
    requires 0.0 < t02 < 1.0 && 0.0 < t12 < 1.0 && 0.0 < t23 < 1.0 && o == Abs(Orient3(Vec3(0.0, t02, 0.0), Vec3(1.0 - t12, t12, 0.0), Vec3(0.0, 1.0 - t23, t23), E2))
    ensures o == (1.0 - t02) * (1.0 - t12) * t23
  {
    TetApex2Orient0(t02, t12, t23);
    TetApex2Piece0(t02, t12, t23, (1.0 - t02) * (1.0 - t12) * t23, Orient3(Vec3(0.0, t02, 0.0), Vec3(1.0 - t12, t12, 0.0), Vec3(0.0, 1.0 - t23, t23), E2));
  }

  lemma {:induction false} TetApex2At1(t02: real, t12: real, t23: real, o: real)
    requires 0.0 < t02 < 1.0 && 0.0 < t12 < 1.0 && 0.0 < t23 < 1.0 && o == Abs(Orient3(Vec3(0.0, t02, 0.0), Vec3(1.0 - t12, t12, 0.0), Vec3(0.0, 1.0 - t23, t23), E3))
    ensures o == (1.0 - t02) * (1.0 - t12) * (1.0 - t23)
  {
    TetApex2Orient1(t02, t12, t23);
    TetApex2Piece1(t02, t12, t23, (1.0 - t02) * (1.0 - t12) * (1.0 - t23), Orient3(Vec3(0.0, t02, 0.0), Vec3(1.0 - t12, t12, 0.0), Vec3(0.0, 1.0 - t23, t23), E3));
  }

  lemma {:induction false} TetApex2At2(t02: real, t12: real, t23: real, o: real)
    requires 0.0 < t02 < 1.0 && 0.0 < t12 < 1.0 && 0.0 < t23 < 1.0 && o == Abs(Orient3(Zero, E1, E3, Vec3(1.0 - t12, t12, 0.0)))
    ensures o == t12
  {
    TetApex2Orient2(t02, t12, t23);
    TetApex2Piece2(t02, t12, t23, t12, Orient3(Zero, E1, E3, Vec3(1.0 - t12, t12, 0.0)));
  }

  lemma {:induction false} TetApex2At3(t02: real, t12: real, t23: real, o: real)
    requires 0.0 < t02 < 1.0 && 0.0 < t12 < 1.0 && 0.0 < t23 < 1.0 && o == Abs(Orient3(Vec3(0.0, t02, 0.0), Vec3(1.0 - t12, t12, 0.0), Zero, E3))
    ensures o == t02 * (1.0 - t12)
  {
    TetApex2Orient3(t02, t12, t23);
    TetApex2Piece3(t02, t12, t23, t02 * (1.0 - t12), Orient3(Vec3(0.0, t02, 0.0), Vec3(1.0 - t12, t12, 0.0), Zero, E3));
  }

  lemma {:induction false} TetApex2InsideSum(X: seq<Vec3>, store: VertexStore,
    x0: Vec3, x1: Vec3, x2: Vec3, x3: Vec3, x4: Vec3, x5: Vec3, x6: Vec3,
    v0: real)
    requires |X| == 7 && X[0] == x0 && X[1] == x1 && X[2] == x2 && X[3] == x3 && X[4] == x4 && X[5] == x5 && X[6] == x6
    requires v0 == Abs(Orient3(x4, x5, x6, x2))
    ensures AllSimplexBelow([Polytope([4, 5, 6, 2], 2, store)], 3, 7)
    ensures Sum(Orientations(X, [Polytope([4, 5, 6, 2], 2, store)], 3)) == v0
  {
    var pieces := [Polytope([4, 5, 6, 2], 2, store)];
    assert AllSimplexBelow(pieces, 3, |X|);
    var os := Orientations(X, pieces, 3);
    assert pieces[0].ia == [4, 5, 6, 2];
    TetOrientationAt(X, pieces, 0, 4, 5, 6, 2, os[0]);
    SumOfOne(os);
  }

  lemma {:induction false} TetApex2OutsideSum(X: seq<Vec3>, store: VertexStore,
    x0: Vec3, x1: Vec3, x2: Vec3, x3: Vec3, x4: Vec3, x5: Vec3, x6: Vec3,
    v1: real, v2: real, v3: real)
    requires |X| == 7 && X[0] == x0 && X[1] == x1 && X[2] == x2 && X[3] == x3 && X[4] == x4 && X[5] == x5 && X[6] == x6
    requires v1 == Abs(Orient3(x4, x5, x6, x3))
    requires v2 == Abs(Orient3(x0, x1, x3, x5))
    requires v3 == Abs(Orient3(x4, x5, x0, x3))
    ensures AllSimplexBelow([Polytope([4, 5, 6, 3], 2, store), Polytope([0, 1, 3, 5], 3, store), Polytope([4, 5, 0, 3], 2, store)], 3, 7)
    ensures Sum(Orientations(X, [Polytope([4, 5, 6, 3], 2, store), Polytope([0, 1, 3, 5], 3, store), Polytope([4, 5, 0, 3], 2, store)], 3)) == v1 + v2 + v3
  {
    var pieces := [Polytope([4, 5, 6, 3], 2, store), Polytope([0, 1, 3, 5], 3, store), Polytope([4, 5, 0, 3], 2, store)];
    assert AllSimplexBelow(pieces, 3, |X|);
    var os := Orientations(X, pieces, 3);
    assert pieces[0].ia == [4, 5, 6, 3];
    TetOrientationAt(X, pieces, 0, 4, 5, 6, 3, os[0]);
    assert pieces[1].ia == [0, 1, 3, 5];
    TetOrientationAt(X, pieces, 1, 0, 1, 3, 5, os[1]);
    assert pieces[2].ia == [4, 5, 0, 3];
    TetOrientationAt(X, pieces, 2, 4, 5, 0, 3, os[2]);
    SumOfThree(os);
  }

  lemma {:induction false} TetApex2Total(t02: real, t12: real, t23: real, v0: real, v1: real, v2: real, v3: real)
    requires 0.0 < t02 < 1.0 && 0.0 < t12 < 1.0 && 0.0 < t23 < 1.0
    requires v0 == Abs(Orient3(Vec3(0.0, t02, 0.0), Vec3(1.0 - t12, t12, 0.0), Vec3(0.0, 1.0 - t23, t23), E2))
    requires v1 == Abs(Orient3(Vec3(0.0, t02, 0.0), Vec3(1.0 - t12, t12, 0.0), Vec3(0.0, 1.0 - t23, t23), E3))
    requires v2 == Abs(Orient3(Zero, E1, E3, Vec3(1.0 - t12, t12, 0.0)))
    requires v3 == Abs(Orient3(Vec3(0.0, t02, 0.0), Vec3(1.0 - t12, t12, 0.0), Zero, E3))
    ensures v0 + v1 + v2 + v3 == 1.0
  {
    TetApex2At0(t02, t12, t23, v0);
    TetApex2At1(t02, t12, t23, v1);
    TetApex2At2(t02, t12, t23, v2);
    TetApex2At3(t02, t12, t23, v3);
    TetApex2Identity(t02, t12, t23);
  }

  lemma {:induction false} TetApex2Orientations(x0: Vec3, x1: Vec3, x2: Vec3, x3: Vec3, x4: Vec3, x5: Vec3, x6: Vec3, t02: real, t12: real, t23: real)
    requires 0.0 < t02 < 1.0 && 0.0 < t12 < 1.0 && 0.0 < t23 < 1.0
    requires x0 == Zero && x1 == E1 && x2 == E2 && x3 == E3 && x4 == Vec3(0.0, t02, 0.0) && x5 == Vec3(1.0 - t12, t12, 0.0) && x6 == Vec3(0.0, 1.0 - t23, t23)
    ensures Abs(Orient3(x4, x5, x6, x2)) + Abs(Orient3(x4, x5, x6, x3)) + Abs(Orient3(x0, x1, x3, x5)) + Abs(Orient3(x4, x5, x0, x3)) == 1.0
  {
    TetApex2Total(t02, t12, t23, Abs(Orient3(x4, x5, x6, x2)), Abs(Orient3(x4, x5, x6, x3)), Abs(Orient3(x0, x1, x3, x5)), Abs(Orient3(x4, x5, x0, x3)));
  }

  lemma {:induction false} TetApex2Lerp0(t02: real)
    ensures Add(Zero, Scale(t02, Sub(E2, Zero))) == Vec3(0.0, t02, 0.0)
  {
  }

  lemma {:induction false} TetApex2Lerp1(t12: real)
    ensures Add(E1, Scale(t12, Sub(E2, E1))) == Vec3(1.0 - t12, t12, 0.0)
  {
  }

  lemma {:induction false} TetApex2Lerp2(t23: real)
    ensures Add(E2, Scale(t23, Sub(E3, E2))) == Vec3(0.0, 1.0 - t23, t23)
  {
  }

  lemma {:induction false} TetApex2Point0(f: seq<real>, V: seq<Vertex>, X: seq<Vec3>)
    requires |f| == 4 && |V| == 4 && V[0].lset == f[0] && V[2].lset == f[2]
    requires CuttablePairs(V, Range(0, 4), [(0, 2), (1, 2), (2, 3)])
    requires X == BaseCoordinates(4) + CutCoordinates(V, BaseCoordinates(4), Range(0, 4), [(0, 2), (1, 2), (2, 3)])
    ensures f[0] != f[2] && X[4] == CutPoint(Zero, E2, f[0], f[2])
  {
    CutCoordinatesIndex(V, BaseCoordinates(4), Range(0, 4), [(0, 2), (1, 2), (2, 3)], X, 0);
    assert Range(0, 4)[0] == 0 && Range(0, 4)[2] == 2;
  }

  lemma {:induction false} TetApex2Value0(a: real, b: real, x: Vec3)
    requires a != b && x == CutPoint(Zero, E2, a, b)
    ensures x == Vec3(0.0, a / (a - b), 0.0)
  {
    TetApex2Lerp0(a / (a - b));
  }

  lemma {:induction false} TetApex2Point1(f: seq<real>, V: seq<Vertex>, X: seq<Vec3>)
    requires |f| == 4 && |V| == 4 && V[1].lset == f[1] && V[2].lset == f[2]
    requires CuttablePairs(V, Range(0, 4), [(0, 2), (1, 2), (2, 3)])
    requires X == BaseCoordinates(4) + CutCoordinates(V, BaseCoordinates(4), Range(0, 4), [(0, 2), (1, 2), (2, 3)])
    ensures f[1] != f[2] && X[5] == CutPoint(E1, E2, f[1], f[2])
  {
    CutCoordinatesIndex(V, BaseCoordinates(4), Range(0, 4), [(0, 2), (1, 2), (2, 3)], X, 1);
    assert Range(0, 4)[1] == 1 && Range(0, 4)[2] == 2;
  }

  lemma {:induction false} TetApex2Value1(a: real, b: real, x: Vec3)
    requires a != b && x == CutPoint(E1, E2, a, b)
    ensures x == Vec3(1.0 - a / (a - b), a / (a - b), 0.0)
  {
    TetApex2Lerp1(a / (a - b));
  }

  lemma {:induction false} TetApex2Point2(f: seq<real>, V: seq<Vertex>, X: seq<Vec3>)
    requires |f| == 4 && |V| == 4 && V[2].lset == f[2] && V[3].lset == f[3]
    requires CuttablePairs(V, Range(0, 4), [(0, 2), (1, 2), (2, 3)])
    requires X == BaseCoordinates(4) + CutCoordinates(V, BaseCoordinates(4), Range(0, 4), [(0, 2), (1, 2), (2, 3)])
    ensures f[2] != f[3] && X[6] == CutPoint(E2, E3, f[2], f[3])
  {
    CutCoordinatesIndex(V, BaseCoordinates(4), Range(0, 4), [(0, 2), (1, 2), (2, 3)], X, 2);
    assert Range(0, 4)[2] == 2 && Range(0, 4)[3] == 3;
  }

  lemma {:induction false} TetApex2Value2(a: real, b: real, x: Vec3)
    requires a != b && x == CutPoint(E2, E3, a, b)
    ensures x == Vec3(0.0, 1.0 - a / (a - b), a / (a - b))
  {
    TetApex2Lerp2(a / (a - b));
  }

  lemma {:induction false} TetApex2Coordinates(f: seq<real>, V: seq<Vertex>, dt: DomainType, X: seq<Vec3>)
    returns (t02: real, t12: real, t23: real, x0: Vec3, x1: Vec3, x2: Vec3, x3: Vec3, x4: Vec3, x5: Vec3, x6: Vec3)
    requires |f| == 4 && |V| == 4 && forall i :: 0 <= i < 4 ==> V[i].lset == f[i]
    requires dt != IF && IsRelevant(dt, f[2]) && IsRelevant(Opposite(dt), f[0]) && IsRelevant(Opposite(dt), f[1]) && IsRelevant(Opposite(dt), f[3])
    requires CuttablePairs(V, Range(0, 4), [(0, 2), (1, 2), (2, 3)])
    requires X == BaseCoordinates(4) + CutCoordinates(V, BaseCoordinates(4), Range(0, 4), [(0, 2), (1, 2), (2, 3)])
    ensures |X| == 7 && X[0] == x0 && X[1] == x1 && X[2] == x2 && X[3] == x3 && X[4] == x4 && X[5] == x5 && X[6] == x6
    ensures 0.0 < t02 < 1.0 && 0.0 < t12 < 1.0 && 0.0 < t23 < 1.0
    ensures x0 == Zero && x1 == E1 && x2 == E2 && x3 == E3 && x4 == Vec3(0.0, t02, 0.0) && x5 == Vec3(1.0 - t12, t12, 0.0) && x6 == Vec3(0.0, 1.0 - t23, t23)
  {
    TetApex2Point0(f, V, X);
    TetApex2Value0(f[0], f[2], X[4]);
    CutParameterBounds(f[0], f[2]);
    TetApex2Point1(f, V, X);
    TetApex2Value1(f[1], f[2], X[5]);
    CutParameterBounds(f[1], f[2]);
    TetApex2Point2(f, V, X);
    TetApex2Value2(f[2], f[3], X[6]);
    CutParameterBounds(f[2], f[3]);
    t02 := f[0] / (f[0] - f[2]);
    t12 := f[1] / (f[1] - f[2]);
    t23 := f[2] / (f[2] - f[3]);
    x0, x1, x2, x3, x4, x5, x6 := Zero, E1, E2, E3, Vec3(0.0, t02, 0.0), Vec3(1.0 - t12, t12, 0.0), Vec3(0.0, 1.0 - t23, t23);
  }

  /** The measures of both domains' pieces add up to one when vertex 2 alone lies in domain dt. */
  lemma {:induction false} TetApex2Measure(f: seq<real>, V: seq<Vertex>, store: VertexStore, dt: DomainType, X: seq<Vec3>)
    requires |f| == 4 && |V| == 4 && forall i :: 0 <= i < 4 ==> V[i].lset == f[i]
    requires dt != IF && TestsAgree(f)
    requires IsRelevant(dt, f[2]) && IsRelevant(Opposite(dt), f[0]) && IsRelevant(Opposite(dt), f[1]) && IsRelevant(Opposite(dt), f[3])
    requires CuttablePairs(V, Range(0, 4), CutPairs(f))
    requires X == BaseCoordinates(4) + CutCoordinates(V, BaseCoordinates(4), Range(0, 4), CutPairs(f))
    ensures |X| == 7
    ensures AllSimplexBelow([Polytope([4, 5, 6, 2], 2, store)], 3, 7) && AllSimplexBelow([Polytope([4, 5, 6, 3], 2, store), Polytope([0, 1, 3, 5], 3, store), Polytope([4, 5, 0, 3], 2, store)], 3, 7)
    ensures Sum(Orientations(X, [Polytope([4, 5, 6, 2], 2, store)], 3)) + Sum(Orientations(X, [Polytope([4, 5, 6, 3], 2, store), Polytope([0, 1, 3, 5], 3, store), Polytope([4, 5, 0, 3], 2, store)], 3)) == 1.0
  {
    TetApex2Cut(f, dt);
    var t02, t12, t23, x0, x1, x2, x3, x4, x5, x6 := TetApex2Coordinates(f, V, dt, X);
    TetApex2Orientations(x0, x1, x2, x3, x4, x5, x6, t02, t12, t23);
    TetApex2InsideSum(X, store, x0, x1, x2, x3, x4, x5, x6,
      Abs(Orient3(x4, x5, x6, x2)));
    TetApex2OutsideSum(X, store, x0, x1, x2, x3, x4, x5, x6,
      Abs(Orient3(x4, x5, x6, x3)),
      Abs(Orient3(x0, x1, x3, x5)),
      Abs(Orient3(x4, x5, x0, x3)));
  }

  /**
   * When vertex 2 alone lies in domain dt, the table's pieces of both
   * domains have absolute orientations that add up to one.
   */
  lemma {:induction false} TetApex2(f: seq<real>, V: seq<Vertex>, store: VertexStore, dt: DomainType, X: seq<Vec3>)
    requires |f| == 4 && |V| == 4 && forall i :: 0 <= i < 4 ==> V[i].lset == f[i]
    requires dt != IF && TestsAgree(f)
    requires IsRelevant(dt, f[2]) && IsRelevant(Opposite(dt), f[0]) && IsRelevant(Opposite(dt), f[1]) && IsRelevant(Opposite(dt), f[3])
    requires CuttablePairs(V, Range(0, 4), CutPairs(f))
    requires X == BaseCoordinates(4) + CutCoordinates(V, BaseCoordinates(4), Range(0, 4), CutPairs(f))
    ensures CutPairs(f) == [(0, 2), (1, 2), (2, 3)] && |X| == 7
    ensures Decompose(dt, 3, f, Polytope(Range(4, 3), 2, store)) == Ok([Polytope([4, 5, 6, 2], 2, store)])
    ensures Decompose(Opposite(dt), 3, f, Polytope(Range(4, 3), 2, store)) == Ok([Polytope([4, 5, 6, 3], 2, store), Polytope([0, 1, 3, 5], 3, store), Polytope([4, 5, 0, 3], 2, store)])
    ensures AllSimplexBelow([Polytope([4, 5, 6, 2], 2, store)], 3, 7) && AllSimplexBelow([Polytope([4, 5, 6, 3], 2, store), Polytope([0, 1, 3, 5], 3, store), Polytope([4, 5, 0, 3], 2, store)], 3, 7)
    ensures Sum(Orientations(X, [Polytope([4, 5, 6, 2], 2, store)], 3)) + Sum(Orientations(X, [Polytope([4, 5, 6, 3], 2, store), Polytope([0, 1, 3, 5], 3, store), Polytope([4, 5, 0, 3], 2, store)], 3)) == 1.0
  {
    TetApex2Pieces(f, store, dt);
    TetApex2Measure(f, V, store, dt, X);
  }

  /** The same, stated for the positive and the negative domain. */
  lemma {:induction false} TetApex2Tiles(f: seq<real>, V: seq<Vertex>, store: VertexStore, dt: DomainType, X: seq<Vec3>)
    requires |f| == 4 && |V| == 4 && forall i :: 0 <= i < 4 ==> V[i].lset == f[i]
    requires dt != IF && TestsAgree(f)
    requires IsRelevant(dt, f[2]) && IsRelevant(Opposite(dt), f[0]) && IsRelevant(Opposite(dt), f[1]) && IsRelevant(Opposite(dt), f[3])
    requires CuttablePairs(V, Range(0, 4), CutPairs(f))
    requires X == BaseCoordinates(4) + CutCoordinates(V, BaseCoordinates(4), Range(0, 4), CutPairs(f))
    ensures PiecesTile(f, 3, Polytope(Range(4, |CutPairs(f)|), 2, store), X)
  {
    TetApex2Pieces(f, store, dt);
    TetApex2Measure(f, V, store, dt, X);
    ListsTile(f, 3, Polytope(Range(4, 3), 2, store), X, dt, [Polytope([4, 5, 6, 2], 2, store)], [Polytope([4, 5, 6, 3], 2, store), Polytope([0, 1, 3, 5], 3, store), Polytope([4, 5, 0, 3], 2, store)]);
  }

  /** The cut pairs when vertex 3 alone lies in domain dt. */
  lemma {:induction false} TetApex3Cut(f: seq<real>, dt: DomainType)
    requires |f| == 4 && dt != IF && TestsAgree(f)
    requires IsRelevant(dt, f[3]) && IsRelevant(Opposite(dt), f[0]) && IsRelevant(Opposite(dt), f[1]) && IsRelevant(Opposite(dt), f[2])
    ensures CutPairs(f) == [(0, 3), (1, 3), (2, 3)]
  {
    CutPairsAgree(f);
    StrictPairsOfFour(f);
    assert PairIf(f, 0, 1) == [];
    assert PairIf(f, 0, 2) == [];
    assert PairIf(f, 0, 3) == [(0, 3)];
    assert PairIf(f, 1, 2) == [];
    assert PairIf(f, 1, 3) == [(1, 3)];
    assert PairIf(f, 2, 3) == [(2, 3)];
  }

  /** The relevant vertices of both domains when vertex 3 alone lies in domain dt. */
  lemma {:induction false} TetApex3Relevant(f: seq<real>, dt: DomainType)
    requires |f| == 4 && dt != IF
    requires IsRelevant(dt, f[3]) && IsRelevant(Opposite(dt), f[0]) && IsRelevant(Opposite(dt), f[1]) && IsRelevant(Opposite(dt), f[2])
    ensures RelevantUpTo(dt, f, 4) == [3] && RelevantUpTo(Opposite(dt), f, 4) == [0, 1, 2]
  {
    RelevantAre3Of4(dt, f);
    RelevantAre012Of4(Opposite(dt), f);
  }

  lemma {:induction false} TetApex3InsideTable(store: VertexStore)
    ensures VolumeTable(3, Polytope(Range(4, 3), 2, store), [3]) == Ok([Polytope([4, 5, 6, 3], 2, store)])
  {
    assert Range(4, 3) == [4, 5, 6];
    assert [4, 5, 6] + [3] == [4, 5, 6, 3];
  }

  lemma {:induction false} TetApex3Inside(f: seq<real>, store: VertexStore, dt: DomainType)
    requires |f| == 4 && dt != IF
    requires IsRelevant(dt, f[3]) && IsRelevant(Opposite(dt), f[0]) && IsRelevant(Opposite(dt), f[1]) && IsRelevant(Opposite(dt), f[2])
    ensures Decompose(dt, 3, f, Polytope(Range(4, 3), 2, store)) == Ok([Polytope([4, 5, 6, 3], 2, store)])
  {
    TetApex3Relevant(f, dt);
    DecomposeVolume(dt, 3, f, Polytope(Range(4, 3), 2, store), [3]);
    TetApex3InsideTable(store);
  }

  lemma {:induction false} TetApex3OutsideTable(store: VertexStore)
    ensures VolumeTable(3, Polytope(Range(4, 3), 2, store), [0, 1, 2]) == Ok([Polytope([4, 5, 6, 2], 2, store), Polytope([0, 1, 2, 5], 3, store), Polytope([4, 5, 0, 2], 2, store)])
  {
    assert Range(4, 3) == [4, 5, 6];
    assert [4, 5, 6] + [2] == [4, 5, 6, 2];
    assert [0, 1, 2] + [5] == [0, 1, 2, 5];
    assert [4, 5, 6][2 := 0] + [2] == [4, 5, 0, 2];
  }

  lemma {:induction false} TetApex3Outside(f: seq<real>, store: VertexStore, dt: DomainType)
    requires |f| == 4 && dt != IF
    requires IsRelevant(dt, f[3]) && IsRelevant(Opposite(dt), f[0]) && IsRelevant(Opposite(dt), f[1]) && IsRelevant(Opposite(dt), f[2])
    ensures Decompose(Opposite(dt), 3, f, Polytope(Range(4, 3), 2, store)) == Ok([Polytope([4, 5, 6, 2], 2, store), Polytope([0, 1, 2, 5], 3, store), Polytope([4, 5, 0, 2], 2, store)])
  {
    TetApex3Relevant(f, dt);
    DecomposeVolume(Opposite(dt), 3, f, Polytope(Range(4, 3), 2, store), [0, 1, 2]);
    TetApex3OutsideTable(store);
  }

  /** The cut and the table entries when vertex 3 alone lies in domain dt. */
  lemma {:induction false} TetApex3Pieces(f: seq<real>, store: VertexStore, dt: DomainType)
    requires |f| == 4 && dt != IF && TestsAgree(f)
    requires IsRelevant(dt, f[3]) && IsRelevant(Opposite(dt), f[0]) && IsRelevant(Opposite(dt), f[1]) && IsRelevant(Opposite(dt), f[2])
    ensures CutPairs(f) == [(0, 3), (1, 3), (2, 3)]
    ensures Decompose(dt, 3, f, Polytope(Range(4, 3), 2, store)) == Ok([Polytope([4, 5, 6, 3], 2, store)])
    ensures Decompose(Opposite(dt), 3, f, Polytope(Range(4, 3), 2, store)) == Ok([Polytope([4, 5, 6, 2], 2, store), Polytope([0, 1, 2, 5], 3, store), Polytope([4, 5, 0, 2], 2, store)])
  {
    TetApex3Cut(f, dt);
    TetApex3Inside(f, store, dt);
    TetApex3Outside(f, store, dt);
  }

  lemma TetApex3Orient0(t03: real, t13: real, t23: real)
    ensures Orient3(Vec3(0.0, 0.0, t03), Vec3(1.0 - t13, 0.0, t13), Vec3(0.0, 1.0 - t23, t23), E3) == -((1.0 - t03) * (1.0 - t13) * (1.0 - t23))
  {
    assert Orient3(Vec3(0.0, 0.0, t03), Vec3(1.0 - t13, 0.0, t13), Vec3(0.0, 1.0 - t23, t23), E3) == -1.0 + t03 + t13 + t23 - t03 * t13 - t03 * t23 - t13 * t23 + t03 * t13 * t23 by {
      assert Sub(E3, Vec3(0.0, 0.0, t03)) == Vec3(0.0, 0.0, 1.0 - t03);
      assert Sub(Vec3(0.0, 1.0 - t23, t23), Vec3(0.0, 0.0, t03)) == Vec3(0.0, 1.0 - t23, -t03 + t23);
      assert Sub(Vec3(1.0 - t13, 0.0, t13), Vec3(0.0, 0.0, t03)) == Vec3(1.0 - t13, 0.0, -t03 + t13);
      assert Orient3(Vec3(0.0, 0.0, t03), Vec3(1.0 - t13, 0.0, t13), Vec3(0.0, 1.0 - t23, t23), E3) == (1.0 - t03) * -((1.0 - t23) * (1.0 - t13));
    }
  }

  lemma TetApex3Piece0(t03: real, t13: real, t23: real, p: real, o: real)
    requires 0.0 < t03 < 1.0 && 0.0 < t13 < 1.0 && 0.0 < t23 < 1.0 && p == (1.0 - t03) * (1.0 - t13) * (1.0 - t23) && o == -p
    ensures p > 0.0 && Abs(o) == p
  {
    PositiveThreeFactors((1.0 - t03), (1.0 - t13), (1.0 - t23), p);
  }

  lemma TetApex3Orient1(t03: real, t13: real, t23: real)
    ensures Orient3(Vec3(0.0, 0.0, t03), Vec3(1.0 - t13, 0.0, t13), Vec3(0.0, 1.0 - t23, t23), E2) == (1.0 - t03) * (1.0 - t13) * t23
  {
    assert Orient3(Vec3(0.0, 0.0, t03), Vec3(1.0 - t13, 0.0, t13), Vec3(0.0, 1.0 - t23, t23), E2) == t23 - t03 * t23 - t13 * t23 + t03 * t13 * t23 by {
      assert Sub(E2, Vec3(0.0, 0.0, t03)) == Vec3(0.0, 1.0, -t03);
      assert Sub(Vec3(0.0, 1.0 - t23, t23), Vec3(0.0, 0.0, t03)) == Vec3(0.0, 1.0 - t23, -t03 + t23);
      assert Sub(Vec3(1.0 - t13, 0.0, t13), Vec3(0.0, 0.0, t03)) == Vec3(1.0 - t13, 0.0, -t03 + t13);
      assert Orient3(Vec3(0.0, 0.0, t03), Vec3(1.0 - t13, 0.0, t13), Vec3(0.0, 1.0 - t23, t23), E2) == -1.0 * -((-t03 + t23) * (1.0 - t13)) + (-t03) * -((1.0 - t23) * (1.0 - t13));
    }
  }

  lemma TetApex3Piece1(t03: real, t13: real, t23: real, p: real, o: real)
    requires 0.0 < t03 < 1.0 && 0.0 < t13 < 1.0 && 0.0 < t23 < 1.0 && p == (1.0 - t03) * (1.0 - t13) * t23 && o == p
    ensures p > 0.0 && Abs(o) == p
  {
    PositiveThreeFactors((1.0 - t03), (1.0 - t13), t23, p);
  }

  lemma TetApex3Orient2(t03: real, t13: real, t23: real)
    ensures Orient3(Zero, E1, E2, Vec3(1.0 - t13, 0.0, t13)) == -t13
  {
    assert Sub(Vec3(1.0 - t13, 0.0, t13), Zero) == Vec3(1.0 - t13, 0.0, t13);
    assert Sub(E2, Zero) == Vec3(0.0, 1.0, 0.0);
    assert Sub(E1, Zero) == Vec3(1.0, 0.0, 0.0);
    assert Orient3(Zero, E1, E2, Vec3(1.0 - t13, 0.0, t13)) == t13 * -(1.0 * 1.0);
  }

  lemma TetApex3Piece2(t03: real, t13: real, t23: real, p: real, o: real)
    requires 0.0 < t03 < 1.0 && 0.0 < t13 < 1.0 && 0.0 < t23 < 1.0 && p == t13 && o == -p
    ensures p > 0.0 && Abs(o) == p
  {
  }

  lemma TetApex3Orient3(t03: real, t13: real, t23: real)
    ensures Orient3(Vec3(0.0, 0.0, t03), Vec3(1.0 - t13, 0.0, t13), Zero, E2) == -(t03 * (1.0 - t13))
  {
    assert Orient3(Vec3(0.0, 0.0, t03), Vec3(1.0 - t13, 0.0, t13), Zero, E2) == -t03 + t03 * t13 by {
      assert Sub(E2, Vec3(0.0, 0.0, t03)) == Vec3(0.0, 1.0, -t03);
      assert Sub(Zero, Vec3(0.0, 0.0, t03)) == Vec3(0.0, 0.0, -t03);
      assert Sub(Vec3(1.0 - t13, 0.0, t13), Vec3(0.0, 0.0, t03)) == Vec3(1.0 - t13, 0.0, -t03 + t13);
      assert Orient3(Vec3(0.0, 0.0, t03), Vec3(1.0 - t13, 0.0, t13), Zero, E2) == -1.0 * -((-t03) * (1.0 - t13));
    }
  }

  lemma TetApex3Piece3(t03: real, t13: real, t23: real, p: real, o: real)
    requires 0.0 < t03 < 1.0 && 0.0 < t13 < 1.0 && 0.0 < t23 < 1.0 && p == t03 * (1.0 - t13) && o == -p
    ensures p > 0.0 && Abs(o) == p
  {
    PositiveTwoFactors(t03, (1.0 - t13), p);
  }

  lemma {:induction false} TetApex3Identity(t03: real, t13: real, t23: real)
    ensures (1.0 - t03) * (1.0 - t13) * (1.0 - t23) + (1.0 - t03) * (1.0 - t13) * t23 + t13 + t03 * (1.0 - t13) == 1.0
  {
  }

  lemma {:induction false} TetApex3At0(t03: real, t13: real, t23: real, o: real)
    requires 0.0 < t03 < 1.0 && 0.0 < t13 < 1.0 && 0.0 < t23 < 1.0 && o == Abs(Orient3(Vec3(0.0, 0.0, t03), Vec3(1.0 - t13, 0.0, t13), Vec3(0.0, 1.0 - t23, t23), E3))
    ensures o == (1.0 - t03) * (1.0 - t13) * (1.0 - t23)
  {
    TetApex3Orient0(t03, t13, t23);
    TetApex3Piece0(t03, t13, t23, (1.0 - t03) * (1.0 - t13) * (1.0 - t23), Orient3(Vec3(0.0, 0.0, t03), Vec3(1.0 - t13, 0.0, t13), Vec3(0.0, 1.0 - t23, t23), E3));
  }

  lemma {:induction false} TetApex3At1(t03: real, t13: real, t23: real, o: real)
    requires 0.0 < t03 < 1.0 && 0.0 < t13 < 1.0 && 0.0 < t23 < 1.0 && o == Abs(Orient3(Vec3(0.0, 0.0, t03), Vec3(1.0 - t13, 0.0, t13), Vec3(0.0, 1.0 - t23, t23), E2))
    ensures o == (1.0 - t03) * (1.0 - t13) * t23
  {
    TetApex3Orient1(t03, t13, t23);
    TetApex3Piece1(t03, t13, t23, (1.0 - t03) * (1.0 - t13) * t23, Orient3(Vec3(0.0, 0.0, t03), Vec3(1.0 - t13, 0.0, t13), Vec3(0.0, 1.0 - t23, t23), E2));
  }

  lemma {:induction false} TetApex3At2(t03: real, t13: real, t23: real, o: real)
    requires 0.0 < t03 < 1.0 && 0.0 < t13 < 1.0 && 0.0 < t23 < 1.0 && o == Abs(Orient3(Zero, E1, E2, Vec3(1.0 - t13, 0.0, t13)))
    ensures o == t13
  {
    TetApex3Orient2(t03, t13, t23);
    TetApex3Piece2(t03, t13, t23, t13, Orient3(Zero, E1, E2, Vec3(1.0 - t13, 0.0, t13)));
  }

  lemma {:induction false} TetApex3At3(t03: real, t13: real, t23: real, o: real)
    requires 0.0 < t03 < 1.0 && 0.0 < t13 < 1.0 && 0.0 < t23 < 1.0 && o == Abs(Orient3(Vec3(0.0, 0.0, t03), Vec3(1.0 - t13, 0.0, t13), Zero, E2))
    ensures o == t03 * (1.0 - t13)
  {
    TetApex3Orient3(t03, t13, t23);
    TetApex3Piece3(t03, t13, t23, t03 * (1.0 - t13), Orient3(Vec3(0.0, 0.0, t03), Vec3(1.0 - t13, 0.0, t13), Zero, E2));
  }

  lemma {:induction false} TetApex3InsideSum(X: seq<Vec3>, store: VertexStore,
    x0: Vec3, x1: Vec3, x2: Vec3, x3: Vec3, x4: Vec3, x5: Vec3, x6: Vec3,
    v0: real)
    requires |X| == 7 && X[0] == x0 && X[1] == x1 && X[2] == x2 && X[3] == x3 && X[4] == x4 && X[5] == x5 && X[6] == x6
    requires v0 == Abs(Orient3(x4, x5, x6, x3))
    ensures AllSimplexBelow([Polytope([4, 5, 6, 3], 2, store)], 3, 7)
    ensures Sum(Orientations(X, [Polytope([4, 5, 6, 3], 2, store)], 3)) == v0
  {
    var pieces := [Polytope([4, 5, 6, 3], 2, store)];
    assert AllSimplexBelow(pieces, 3, |X|);
    var os := Orientations(X, pieces, 3);
    assert pieces[0].ia == [4, 5, 6, 3];
    TetOrientationAt(X, pieces, 0, 4, 5, 6, 3, os[0]);
    SumOfOne(os);
  }

  lemma {:induction false} TetApex3OutsideSum(X: seq<Vec3>, store: VertexStore,
    x0: Vec3, x1: Vec3, x2: Vec3, x3: Vec3, x4: Vec3, x5: Vec3, x6: Vec3,
    v1: real, v2: real, v3: real)
    requires |X| == 7 && X[0] == x0 && X[1] == x1 && X[2] == x2 && X[3] == x3 && X[4] == x4 && X[5] == x5 && X[6] == x6
    requires v1 == Abs(Orient3(x4, x5, x6, x2))
    requires v2 == Abs(Orient3(x0, x1, x2, x5))
    requires v3 == Abs(Orient3(x4, x5, x0, x2))
    ensures AllSimplexBelow([Polytope([4, 5, 6, 2], 2, store), Polytope([0, 1, 2, 5], 3, store), Polytope([4, 5, 0, 2], 2, store)], 3, 7)
    ensures Sum(Orientations(X, [Polytope([4, 5, 6, 2], 2, store), Polytope([0, 1, 2, 5], 3, store), Polytope([4, 5, 0, 2], 2, store)], 3)) == v1 + v2 + v3
  {
    var pieces := [Polytope([4, 5, 6, 2], 2, store), Polytope([0, 1, 2, 5], 3, store), Polytope([4, 5, 0, 2], 2, store)];
    assert AllSimplexBelow(pieces, 3, |X|);
    var os := Orientations(X, pieces, 3);
    assert pieces[0].ia == [4, 5, 6, 2];
    TetOrientationAt(X, pieces, 0, 4, 5, 6, 2, os[0]);
    assert pieces[1].ia == [0, 1, 2, 5];
    TetOrientationAt(X, pieces, 1, 0, 1, 2, 5, os[1]);
    assert pieces[2].ia == [4, 5, 0, 2];
    TetOrientationAt(X, pieces, 2, 4, 5, 0, 2, os[2]);
    SumOfThree(os);
  }

  lemma {:induction false} TetApex3Total(t03: real, t13: real, t23: real, v0: real, v1: real, v2: real, v3: real)
    requires 0.0 < t03 < 1.0 && 0.0 < t13 < 1.0 && 0.0 < t23 < 1.0
    requires v0 == Abs(Orient3(Vec3(0.0, 0.0, t03), Vec3(1.0 - t13, 0.0, t13), Vec3(0.0, 1.0 - t23, t23), E3))
    requires v1 == Abs(Orient3(Vec3(0.0, 0.0, t03), Vec3(1.0 - t13, 0.0, t13), Vec3(0.0, 1.0 - t23, t23), E2))
    requires v2 == Abs(Orient3(Zero, E1, E2, Vec3(1.0 - t13, 0.0, t13)))
    requires v3 == Abs(Orient3(Vec3(0.0, 0.0, t03), Vec3(1.0 - t13, 0.0, t13), Zero, E2))
    ensures v0 + v1 + v2 + v3 == 1.0
  {
    TetApex3At0(t03, t13, t23, v0);
    TetApex3At1(t03, t13, t23, v1);
    TetApex3At2(t03, t13, t23, v2);
    TetApex3At3(t03, t13, t23, v3);
    TetApex3Identity(t03, t13, t23);
  }

  lemma {:induction false} TetApex3Orientations(x0: Vec3, x1: Vec3, x2: Vec3, x3: Vec3, x4: Vec3, x5: Vec3, x6: Vec3, t03: real, t13: real, t23: real)
    requires 0.0 < t03 < 1.0 && 0.0 < t13 < 1.0 && 0.0 < t23 < 1.0
    requires x0 == Zero && x1 == E1 && x2 == E2 && x3 == E3 && x4 == Vec3(0.0, 0.0, t03) && x5 == Vec3(1.0 - t13, 0.0, t13) && x6 == Vec3(0.0, 1.0 - t23, t23)
    ensures Abs(Orient3(x4, x5, x6, x3)) + Abs(Orient3(x4, x5, x6, x2)) + Abs(Orient3(x0, x1, x2, x5)) + Abs(Orient3(x4, x5, x0, x2)) == 1.0
  {
    TetApex3Total(t03, t13, t23, Abs(Orient3(x4, x5, x6, x3)), Abs(Orient3(x4, x5, x6, x2)), Abs(Orient3(x0, x1, x2, x5)), Abs(Orient3(x4, x5, x0, x2)));
  }

  lemma {:induction false} TetApex3Lerp0(t03: real)
    ensures Add(Zero, Scale(t03, Sub(E3, Zero))) == Vec3(0.0, 0.0, t03)
  {
  }

  lemma {:induction false} TetApex3Lerp1(t13: real)
    ensures Add(E1, Scale(t13, Sub(E3, E1))) == Vec3(1.0 - t13, 0.0, t13)
  {
  }

  lemma {:induction false} TetApex3Lerp2(t23: real)
    ensures Add(E2, Scale(t23, Sub(E3, E2))) == Vec3(0.0, 1.0 - t23, t23)
  {
  }

  lemma {:induction false} TetApex3Point0(f: seq<real>, V: seq<Vertex>, X: seq<Vec3>)
    requires |f| == 4 && |V| == 4 && V[0].lset == f[0] && V[3].lset == f[3]
    requires CuttablePairs(V, Range(0, 4), [(0, 3), (1, 3), (2, 3)])
    requires X == BaseCoordinates(4) + CutCoordinates(V, BaseCoordinates(4), Range(0, 4), [(0, 3), (1, 3), (2, 3)])
    ensures f[0] != f[3] && X[4] == CutPoint(Zero, E3, f[0], f[3])
  {
    CutCoordinatesIndex(V, BaseCoordinates(4), Range(0, 4), [(0, 3), (1, 3), (2, 3)], X, 0);
    assert Range(0, 4)[0] == 0 && Range(0, 4)[3] == 3;
  }

  lemma {:induction false} TetApex3Value0(a: real, b: real, x: Vec3)
    requires a != b && x == CutPoint(Zero, E3, a, b)
    ensures x == Vec3(0.0, 0.0, a / (a - b))
  {
    TetApex3Lerp0(a / (a - b));
  }

  lemma {:induction false} TetApex3Point1(f: seq<real>, V: seq<Vertex>, X: seq<Vec3>)
    requires |f| == 4 && |V| == 4 && V[1].lset == f[1] && V[3].lset == f[3]
    requires CuttablePairs(V, Range(0, 4), [(0, 3), (1, 3), (2, 3)])
    requires X == BaseCoordinates(4) + CutCoordinates(V, BaseCoordinates(4), Range(0, 4), [(0, 3), (1, 3), (2, 3)])
    ensures f[1] != f[3] && X[5] == CutPoint(E1, E3, f[1], f[3])
  {
    CutCoordinatesIndex(V, BaseCoordinates(4), Range(0, 4), [(0, 3), (1, 3), (2, 3)], X, 1);
    assert Range(0, 4)[1] == 1 && Range(0, 4)[3] == 3;
  }

  lemma {:induction false} TetApex3Value1(a: real, b: real, x: Vec3)
    requires a != b && x == CutPoint(E1, E3, a, b)
    ensures x == Vec3(1.0 - a / (a - b), 0.0, a / (a - b))
  {
    TetApex3Lerp1(a / (a - b));
  }

  lemma {:induction false} TetApex3Point2(f: seq<real>, V: seq<Vertex>, X: seq<Vec3>)
    requires |f| == 4 && |V| == 4 && V[2].lset == f[2] && V[3].lset == f[3]
    requires CuttablePairs(V, Range(0, 4), [(0, 3), (1, 3), (2, 3)])
    requires X == BaseCoordinates(4) + CutCoordinates(V, BaseCoordinates(4), Range(0, 4), [(0, 3), (1, 3), (2, 3)])
    ensures f[2] != f[3] && X[6] == CutPoint(E2, E3, f[2], f[3])
  {
    CutCoordinatesIndex(V, BaseCoordinates(4), Range(0, 4), [(0, 3), (1, 3), (2, 3)], X, 2);
    assert Range(0, 4)[2] == 2 && Range(0, 4)[3] == 3;
  }

  lemma {:induction false} TetApex3Value2(a: real, b: real, x: Vec3)
    requires a != b && x == CutPoint(E2, E3, a, b)
    ensures x == Vec3(0.0, 1.0 - a / (a - b), a / (a - b))
  {
    TetApex3Lerp2(a / (a - b));
  }

  lemma {:induction false} TetApex3Coordinates(f: seq<real>, V: seq<Vertex>, dt: DomainType, X: seq<Vec3>)
    returns (t03: real, t13: real, t23: real, x0: Vec3, x1: Vec3, x2: Vec3, x3: Vec3, x4: Vec3, x5: Vec3, x6: Vec3)
    requires |f| == 4 && |V| == 4 && forall i :: 0 <= i < 4 ==> V[i].lset == f[i]
    requires dt != IF && IsRelevant(dt, f[3]) && IsRelevant(Opposite(dt), f[0]) && IsRelevant(Opposite(dt), f[1]) && IsRelevant(Opposite(dt), f[2])
    requires CuttablePairs(V, Range(0, 4), [(0, 3), (1, 3), (2, 3)])
    requires X == BaseCoordinates(4) + CutCoordinates(V, BaseCoordinates(4), Range(0, 4), [(0, 3), (1, 3), (2, 3)])
    ensures |X| == 7 && X[0] == x0 && X[1] == x1 && X[2] == x2 && X[3] == x3 && X[4] == x4 && X[5] == x5 && X[6] == x6
    ensures 0.0 < t03 < 1.0 && 0.0 < t13 < 1.0 && 0.0 < t23 < 1.0
    ensures x0 == Zero && x1 == E1 && x2 == E2 && x3 == E3 && x4 == Vec3(0.0, 0.0, t03) && x5 == Vec3(1.0 - t13, 0.0, t13) && x6 == Vec3(0.0, 1.0 - t23, t23)
  {
    TetApex3Point0(f, V, X);
    TetApex3Value0(f[0], f[3], X[4]);
    CutParameterBounds(f[0], f[3]);
    TetApex3Point1(f, V, X);
    TetApex3Value1(f[1], f[3], X[5]);
    CutParameterBounds(f[1], f[3]);
    TetApex3Point2(f, V, X);
    TetApex3Value2(f[2], f[3], X[6]);
    CutParameterBounds(f[2], f[3]);
    t03 := f[0] / (f[0] - f[3]);
    t13 := f[1] / (f[1] - f[3]);
    t23 := f[2] / (f[2] - f[3]);
    x0, x1, x2, x3, x4, x5, x6 := Zero, E1, E2, E3, Vec3(0.0, 0.0, t03), Vec3(1.0 - t13, 0.0, t13), Vec3(0.0, 1.0 - t23, t23);
  }

  /** The measures of both domains' pieces add up to one when vertex 3 alone lies in domain dt. */
  lemma {:induction false} TetApex3Measure(f: seq<real>, V: seq<Vertex>, store: VertexStore, dt: DomainType, X: seq<Vec3>)
    requires |f| == 4 && |V| == 4 && forall i :: 0 <= i < 4 ==> V[i].lset == f[i]
    requires dt != IF && TestsAgree(f)
    requires IsRelevant(dt, f[3]) && IsRelevant(Opposite(dt), f[0]) && IsRelevant(Opposite(dt), f[1]) && IsRelevant(Opposite(dt), f[2])
    requires CuttablePairs(V, Range(0, 4), CutPairs(f))
    requires X == BaseCoordinates(4) + CutCoordinates(V, BaseCoordinates(4), Range(0, 4), CutPairs(f))
    ensures |X| == 7
    ensures AllSimplexBelow([Polytope([4, 5, 6, 3], 2, store)], 3, 7) && AllSimplexBelow([Polytope([4, 5, 6, 2], 2, store), Polytope([0, 1, 2, 5], 3, store), Polytope([4, 5, 0, 2], 2, store)], 3, 7)
    ensures Sum(Orientations(X, [Polytope([4, 5, 6, 3], 2, store)], 3)) + Sum(Orientations(X, [Polytope([4, 5, 6, 2], 2, store), Polytope([0, 1, 2, 5], 3, store), Polytope([4, 5, 0, 2], 2, store)], 3)) == 1.0
  {
    TetApex3Cut(f, dt);
    var t03, t13, t23, x0, x1, x2, x3, x4, x5, x6 := TetApex3Coordinates(f, V, dt, X);
    TetApex3Orientations(x0, x1, x2, x3, x4, x5, x6, t03, t13, t23);
    TetApex3InsideSum(X, store, x0, x1, x2, x3, x4, x5, x6,
      Abs(Orient3(x4, x5, x6, x3)));
    TetApex3OutsideSum(X, store, x0, x1, x2, x3, x4, x5, x6,
      Abs(Orient3(x4, x5, x6, x2)),
      Abs(Orient3(x0, x1, x2, x5)),
      Abs(Orient3(x4, x5, x0, x2)));
  }

  /**
   * When vertex 3 alone lies in domain dt, the table's pieces of both
   * domains have absolute orientations that add up to one.
   */
  lemma {:induction false} TetApex3(f: seq<real>, V: seq<Vertex>, store: VertexStore, dt: DomainType, X: seq<Vec3>)
    requires |f| == 4 && |V| == 4 && forall i :: 0 <= i < 4 ==> V[i].lset == f[i]
    requires dt != IF && TestsAgree(f)
    requires IsRelevant(dt, f[3]) && IsRelevant(Opposite(dt), f[0]) && IsRelevant(Opposite(dt), f[1]) && IsRelevant(Opposite(dt), f[2])
    requires CuttablePairs(V, Range(0, 4), CutPairs(f))
    requires X == BaseCoordinates(4) + CutCoordinates(V, BaseCoordinates(4), Range(0, 4), CutPairs(f))
    ensures CutPairs(f) == [(0, 3), (1, 3), (2, 3)] && |X| == 7
    ensures Decompose(dt, 3, f, Polytope(Range(4, 3), 2, store)) == Ok([Polytope([4, 5, 6, 3], 2, store)])
    ensures Decompose(Opposite(dt), 3, f, Polytope(Range(4, 3), 2, store)) == Ok([Polytope([4, 5, 6, 2], 2, store), Polytope([0, 1, 2, 5], 3, store), Polytope([4, 5, 0, 2], 2, store)])
    ensures AllSimplexBelow([Polytope([4, 5, 6, 3], 2, store)], 3, 7) && AllSimplexBelow([Polytope([4, 5, 6, 2], 2, store), Polytope([0, 1, 2, 5], 3, store), Polytope([4, 5, 0, 2], 2, store)], 3, 7)
    ensures Sum(Orientations(X, [Polytope([4, 5, 6, 3], 2, store)], 3)) + Sum(Orientations(X, [Polytope([4, 5, 6, 2], 2, store), Polytope([0, 1, 2, 5], 3, store), Polytope([4, 5, 0, 2], 2, store)], 3)) == 1.0
  {
    TetApex3Pieces(f, store, dt);
    TetApex3Measure(f, V, store, dt, X);
  }

  /** The same, stated for the positive and the negative domain. */
  lemma {:induction false} TetApex3Tiles(f: seq<real>, V: seq<Vertex>, store: VertexStore, dt: DomainType, X: seq<Vec3>)
    requires |f| == 4 && |V| == 4 && forall i :: 0 <= i < 4 ==> V[i].lset == f[i]
    requires dt != IF && TestsAgree(f)
    requires IsRelevant(dt, f[3]) && IsRelevant(Opposite(dt), f[0]) && IsRelevant(Opposite(dt), f[1]) && IsRelevant(Opposite(dt), f[2])
    requires CuttablePairs(V, Range(0, 4), CutPairs(f))
    requires X == BaseCoordinates(4) + CutCoordinates(V, BaseCoordinates(4), Range(0, 4), CutPairs(f))
    ensures PiecesTile(f, 3, Polytope(Range(4, |CutPairs(f)|), 2, store), X)
  {
    TetApex3Pieces(f, store, dt);
    TetApex3Measure(f, V, store, dt, X);
    ListsTile(f, 3, Polytope(Range(4, 3), 2, store), X, dt, [Polytope([4, 5, 6, 3], 2, store)], [Polytope([4, 5, 6, 2], 2, store), Polytope([0, 1, 2, 5], 3, store), Polytope([4, 5, 0, 2], 2, store)]);
  }

  /** The cut pairs when vertices 0 and 1 alone lie in domain dt. */
  lemma {:induction false} TetSplit01Cut(f: seq<real>, dt: DomainType)
    requires |f| == 4 && dt != IF && TestsAgree(f)
    requires IsRelevant(dt, f[0]) && IsRelevant(dt, f[1]) && IsRelevant(Opposite(dt), f[2]) && IsRelevant(Opposite(dt), f[3])
    ensures CutPairs(f) == [(0, 2), (0, 3), (1, 2), (1, 3)]
  {
    CutPairsAgree(f);
    StrictPairsOfFour(f);
    assert PairIf(f, 0, 1) == [];
    assert PairIf(f, 0, 2) == [(0, 2)];
    assert PairIf(f, 0, 3) == [(0, 3)];
    assert PairIf(f, 1, 2) == [(1, 2)];
    assert PairIf(f, 1, 3) == [(1, 3)];
    assert PairIf(f, 2, 3) == [];
  }

  /** The relevant vertices of both domains when vertices 0 and 1 alone lie in domain dt. */
  lemma {:induction false} TetSplit01Relevant(f: seq<real>, dt: DomainType)
    requires |f| == 4 && dt != IF
    requires IsRelevant(dt, f[0]) && IsRelevant(dt, f[1]) && IsRelevant(Opposite(dt), f[2]) && IsRelevant(Opposite(dt), f[3])
    ensures RelevantUpTo(dt, f, 4) == [0, 1] && RelevantUpTo(Opposite(dt), f, 4) == [2, 3]
  {
    RelevantAre01Of4(dt, f);
    RelevantAre23Of4(Opposite(dt), f);
  }

  lemma {:induction false} TetSplit01InsideTable(store: VertexStore)
    ensures VolumeTable(3, Polytope(Range(4, 4), 2, store), [0, 1]) == Ok([Polytope([1, 5, 6, 7], 2, store), Polytope([0, 1, 5, 6], 3, store), Polytope([4, 5, 6, 0], 2, store)])
  {
    assert Range(4, 4) == [4, 5, 6, 7];
    assert [4, 5, 6, 7][0 := 1] == [1, 5, 6, 7];
    assert [0, 1] + [5, 6] == [0, 1, 5, 6];
    assert [4, 5, 6, 7][3 := 0] == [4, 5, 6, 0];
  }

  lemma {:induction false} TetSplit01Inside(f: seq<real>, store: VertexStore, dt: DomainType)
    requires |f| == 4 && dt != IF
    requires IsRelevant(dt, f[0]) && IsRelevant(dt, f[1]) && IsRelevant(Opposite(dt), f[2]) && IsRelevant(Opposite(dt), f[3])
    ensures Decompose(dt, 3, f, Polytope(Range(4, 4), 2, store)) == Ok([Polytope([1, 5, 6, 7], 2, store), Polytope([0, 1, 5, 6], 3, store), Polytope([4, 5, 6, 0], 2, store)])
  {
    TetSplit01Relevant(f, dt);
    DecomposeVolume(dt, 3, f, Polytope(Range(4, 4), 2, store), [0, 1]);
    TetSplit01InsideTable(store);
  }

  lemma {:induction false} TetSplit01OutsideTable(store: VertexStore)
    ensures VolumeTable(3, Polytope(Range(4, 4), 2, store), [2, 3]) == Ok([Polytope([3, 5, 6, 7], 2, store), Polytope([2, 3, 5, 6], 3, store), Polytope([4, 5, 6, 2], 2, store)])
  {
    assert Range(4, 4) == [4, 5, 6, 7];
    assert [4, 5, 6, 7][0 := 3] == [3, 5, 6, 7];
    assert [2, 3] + [5, 6] == [2, 3, 5, 6];
    assert [4, 5, 6, 7][3 := 2] == [4, 5, 6, 2];
  }

  lemma {:induction false} TetSplit01Outside(f: seq<real>, store: VertexStore, dt: DomainType)
    requires |f| == 4 && dt != IF
    requires IsRelevant(dt, f[0]) && IsRelevant(dt, f[1]) && IsRelevant(Opposite(dt), f[2]) && IsRelevant(Opposite(dt), f[3])
    ensures Decompose(Opposite(dt), 3, f, Polytope(Range(4, 4), 2, store)) == Ok([Polytope([3, 5, 6, 7], 2, store), Polytope([2, 3, 5, 6], 3, store), Polytope([4, 5, 6, 2], 2, store)])
  {
    TetSplit01Relevant(f, dt);
    DecomposeVolume(Opposite(dt), 3, f, Polytope(Range(4, 4), 2, store), [2, 3]);
    TetSplit01OutsideTable(store);
  }

  /** The cut and the table entries when vertices 0 and 1 alone lie in domain dt. */
  lemma {:induction false} TetSplit01Pieces(f: seq<real>, store: VertexStore, dt: DomainType)
    requires |f| == 4 && dt != IF && TestsAgree(f)
    requires IsRelevant(dt, f[0]) && IsRelevant(dt, f[1]) && IsRelevant(Opposite(dt), f[2]) && IsRelevant(Opposite(dt), f[3])
    ensures CutPairs(f) == [(0, 2), (0, 3), (1, 2), (1, 3)]
    ensures Decompose(dt, 3, f, Polytope(Range(4, 4), 2, store)) == Ok([Polytope([1, 5, 6, 7], 2, store), Polytope([0, 1, 5, 6], 3, store), Polytope([4, 5, 6, 0], 2, store)])
    ensures Decompose(Opposite(dt), 3, f, Polytope(Range(4, 4), 2, store)) == Ok([Polytope([3, 5, 6, 7], 2, store), Polytope([2, 3, 5, 6], 3, store), Polytope([4, 5, 6, 2], 2, store)])
  {
    TetSplit01Cut(f, dt);
    TetSplit01Inside(f, store, dt);
    TetSplit01Outside(f, store, dt);
  }

  lemma TetSplit01Orient0(t02: real, t03: real, t12: real, t13: real)
    ensures Orient3(E1, Vec3(0.0, 0.0, t03), Vec3(1.0 - t12, t12, 0.0), Vec3(1.0 - t13, 0.0, t13)) == (1.0 - t03) * t12 * t13
  {
    assert Orient3(E1, Vec3(0.0, 0.0, t03), Vec3(1.0 - t12, t12, 0.0), Vec3(1.0 - t13, 0.0, t13)) == t12 * t13 - t03 * t12 * t13 by {
      assert Sub(Vec3(1.0 - t13, 0.0, t13), E1) == Vec3(-t13, 0.0, t13);
      assert Sub(Vec3(1.0 - t12, t12, 0.0), E1) == Vec3(-t12, t12, 0.0);
      assert Sub(Vec3(0.0, 0.0, t03), E1) == Vec3(-1.0, 0.0, t03);
      assert Orient3(E1, Vec3(0.0, 0.0, t03), Vec3(1.0 - t12, t12, 0.0), Vec3(1.0 - t13, 0.0, t13)) == (-t13) * (t12 * t03) + t13 * -(t12 * (-1.0));
    }
  }

  lemma TetSplit01Piece0(t02: real, t03: real, t12: real, t13: real, p: real, o: real)
    requires 0.0 < t02 < 1.0 && 0.0 < t03 < 1.0 && 0.0 < t12 < 1.0 && 0.0 < t13 < 1.0 && p == (1.0 - t03) * t12 * t13 && o == p
    ensures p > 0.0 && Abs(o) == p
  {
    PositiveThreeFactors((1.0 - t03), t12, t13, p);
  }

  lemma TetSplit01Orient1(t02: real, t03: real, t12: real, t13: real)
    ensures Orient3(Zero, E1, Vec3(0.0, 0.0, t03), Vec3(1.0 - t12, t12, 0.0)) == t03 * t12
  {
    assert Sub(Vec3(1.0 - t12, t12, 0.0), Zero) == Vec3(1.0 - t12, t12, 0.0);
    assert Sub(Vec3(0.0, 0.0, t03), Zero) == Vec3(0.0, 0.0, t03);
    assert Sub(E1, Zero) == Vec3(1.0, 0.0, 0.0);
    assert Orient3(Zero, E1, Vec3(0.0, 0.0, t03), Vec3(1.0 - t12, t12, 0.0)) == -t12 * -(t03 * 1.0);
  }

  lemma TetSplit01Piece1(t02: real, t03: real, t12: real, t13: real, p: real, o: real)
    requires 0.0 < t02 < 1.0 && 0.0 < t03 < 1.0 && 0.0 < t12 < 1.0 && 0.0 < t13 < 1.0 && p == t03 * t12 && o == p
    ensures p > 0.0 && Abs(o) == p
  {
    PositiveTwoFactors(t03, t12, p);
  }

  lemma TetSplit01Orient2(t02: real, t03: real, t12: real, t13: real)
    ensures Orient3(Vec3(0.0, t02, 0.0), Vec3(0.0, 0.0, t03), Vec3(1.0 - t12, t12, 0.0), Zero) == t02 * t03 * (1.0 - t12)
  {
    assert Orient3(Vec3(0.0, t02, 0.0), Vec3(0.0, 0.0, t03), Vec3(1.0 - t12, t12, 0.0), Zero) == t02 * t03 - t02 * t03 * t12 by {
      assert Sub(Zero, Vec3(0.0, t02, 0.0)) == Vec3(0.0, -t02, 0.0);
      assert Sub(Vec3(1.0 - t12, t12, 0.0), Vec3(0.0, t02, 0.0)) == Vec3(1.0 - t12, -t02 + t12, 0.0);
      assert Sub(Vec3(0.0, 0.0, t03), Vec3(0.0, t02, 0.0)) == Vec3(0.0, -t02, t03);
      assert Orient3(Vec3(0.0, t02, 0.0), Vec3(0.0, 0.0, t03), Vec3(1.0 - t12, t12, 0.0), Zero) == -(-t02) * ((1.0 - t12) * t03);
    }
  }

  lemma TetSplit01Piece2(t02: real, t03: real, t12: real, t13: real, p: real, o: real)
    requires 0.0 < t02 < 1.0 && 0.0 < t03 < 1.0 && 0.0 < t12 < 1.0 && 0.0 < t13 < 1.0 && p == t02 * t03 * (1.0 - t12) && o == p
    ensures p > 0.0 && Abs(o) == p
  {
    PositiveThreeFactors(t02, t03, (1.0 - t12), p);
  }

  lemma TetSplit01Orient3(t02: real, t03: real, t12: real, t13: real)
    ensures Orient3(E3, Vec3(0.0, 0.0, t03), Vec3(1.0 - t12, t12, 0.0), Vec3(1.0 - t13, 0.0, t13)) == -((1.0 - t03) * t12 * (1.0 - t13))
  {
    assert Orient3(E3, Vec3(0.0, 0.0, t03), Vec3(1.0 - t12, t12, 0.0), Vec3(1.0 - t13, 0.0, t13)) == -t12 + t03 * t12 + t12 * t13 - t03 * t12 * t13 by {
      assert Sub(Vec3(1.0 - t13, 0.0, t13), E3) == Vec3(1.0 - t13, 0.0, -1.0 + t13);
      assert Sub(Vec3(1.0 - t12, t12, 0.0), E3) == Vec3(1.0 - t12, t12, -1.0);
      assert Sub(Vec3(0.0, 0.0, t03), E3) == Vec3(0.0, 0.0, -1.0 + t03);
      assert Orient3(E3, Vec3(0.0, 0.0, t03), Vec3(1.0 - t12, t12, 0.0), Vec3(1.0 - t13, 0.0, t13)) == (1.0 - t13) * (t12 * (-1.0 + t03));
    }
  }

  lemma TetSplit01Piece3(t02: real, t03: real, t12: real, t13: real, p: real, o: real)
    requires 0.0 < t02 < 1.0 && 0.0 < t03 < 1.0 && 0.0 < t12 < 1.0 && 0.0 < t13 < 1.0 && p == (1.0 - t03) * t12 * (1.0 - t13) && o == -p
    ensures p > 0.0 && Abs(o) == p
  {
    PositiveThreeFactors((1.0 - t03), t12, (1.0 - t13), p);
  }

  lemma TetSplit01Orient4(t02: real, t03: real, t12: real, t13: real)
    ensures Orient3(E2, E3, Vec3(0.0, 0.0, t03), Vec3(1.0 - t12, t12, 0.0)) == -((1.0 - t03) * (1.0 - t12))
  {
    assert Orient3(E2, E3, Vec3(0.0, 0.0, t03), Vec3(1.0 - t12, t12, 0.0)) == -1.0 + t03 + t12 - t03 * t12 by {
      assert Sub(Vec3(1.0 - t12, t12, 0.0), E2) == Vec3(1.0 - t12, -1.0 + t12, 0.0);
      assert Sub(Vec3(0.0, 0.0, t03), E2) == Vec3(0.0, -1.0, t03);
      assert Sub(E3, E2) == Vec3(0.0, -1.0, 1.0);
      assert Orient3(E2, E3, Vec3(0.0, 0.0, t03), Vec3(1.0 - t12, t12, 0.0)) == (1.0 - t12) * ((-1.0) * 1.0 - t03 * (-1.0));
    }
  }

  lemma TetSplit01Piece4(t02: real, t03: real, t12: real, t13: real, p: real, o: real)
    requires 0.0 < t02 < 1.0 && 0.0 < t03 < 1.0 && 0.0 < t12 < 1.0 && 0.0 < t13 < 1.0 && p == (1.0 - t03) * (1.0 - t12) && o == -p
    ensures p > 0.0 && Abs(o) == p
  {
    PositiveTwoFactors((1.0 - t03), (1.0 - t12), p);
  }

  lemma TetSplit01Orient5(t02: real, t03: real, t12: real, t13: real)
    ensures Orient3(Vec3(0.0, t02, 0.0), Vec3(0.0, 0.0, t03), Vec3(1.0 - t12, t12, 0.0), E2) == -((1.0 - t02) * t03 * (1.0 - t12))
  {
    assert Orient3(Vec3(0.0, t02, 0.0), Vec3(0.0, 0.0, t03), Vec3(1.0 - t12, t12, 0.0), E2) == -t03 + t02 * t03 + t03 * t12 - t02 * t03 * t12 by {
      assert Sub(E2, Vec3(0.0, t02, 0.0)) == Vec3(0.0, 1.0 - t02, 0.0);
      assert Sub(Vec3(1.0 - t12, t12, 0.0), Vec3(0.0, t02, 0.0)) == Vec3(1.0 - t12, -t02 + t12, 0.0);
      assert Sub(Vec3(0.0, 0.0, t03), Vec3(0.0, t02, 0.0)) == Vec3(0.0, -t02, t03);
      assert Orient3(Vec3(0.0, t02, 0.0), Vec3(0.0, 0.0, t03), Vec3(1.0 - t12, t12, 0.0), E2) == -(1.0 - t02) * ((1.0 - t12) * t03);
    }
  }

  lemma TetSplit01Piece5(t02: real, t03: real, t12: real, t13: real, p: real, o: real)
    requires 0.0 < t02 < 1.0 && 0.0 < t03 < 1.0 && 0.0 < t12 < 1.0 && 0.0 < t13 < 1.0 && p == (1.0 - t02) * t03 * (1.0 - t12) && o == -p
    ensures p > 0.0 && Abs(o) == p
  {
    PositiveThreeFactors((1.0 - t02), t03, (1.0 - t12), p);
  }

  lemma {:induction false} TetSplit01Identity(t02: real, t03: real, t12: real, t13: real)
    ensures (1.0 - t03) * t12 * t13 + t03 * t12 + t02 * t03 * (1.0 - t12) + (1.0 - t03) * t12 * (1.0 - t13) + (1.0 - t03) * (1.0 - t12) + (1.0 - t02) * t03 * (1.0 - t12) == 1.0
  {
  }

  lemma {:induction false} TetSplit01At0(t02: real, t03: real, t12: real, t13: real, o: real)
    requires 0.0 < t02 < 1.0 && 0.0 < t03 < 1.0 && 0.0 < t12 < 1.0 && 0.0 < t13 < 1.0 && o == Abs(Orient3(E1, Vec3(0.0, 0.0, t03), Vec3(1.0 - t12, t12, 0.0), Vec3(1.0 - t13, 0.0, t13)))
    ensures o == (1.0 - t03) * t12 * t13
  {
    TetSplit01Orient0(t02, t03, t12, t13);
    TetSplit01Piece0(t02, t03, t12, t13, (1.0 - t03) * t12 * t13, Orient3(E1, Vec3(0.0, 0.0, t03), Vec3(1.0 - t12, t12, 0.0), Vec3(1.0 - t13, 0.0, t13)));
  }

  lemma {:induction false} TetSplit01At1(t02: real, t03: real, t12: real, t13: real, o: real)
    requires 0.0 < t02 < 1.0 && 0.0 < t03 < 1.0 && 0.0 < t12 < 1.0 && 0.0 < t13 < 1.0 && o == Abs(Orient3(Zero, E1, Vec3(0.0, 0.0, t03), Vec3(1.0 - t12, t12, 0.0)))
    ensures o == t03 * t12
  {
    TetSplit01Orient1(t02, t03, t12, t13);
    TetSplit01Piece1(t02, t03, t12, t13, t03 * t12, Orient3(Zero, E1, Vec3(0.0, 0.0, t03), Vec3(1.0 - t12, t12, 0.0)));
  }

  lemma {:induction false} TetSplit01At2(t02: real, t03: real, t12: real, t13: real, o: real)
    requires 0.0 < t02 < 1.0 && 0.0 < t03 < 1.0 && 0.0 < t12 < 1.0 && 0.0 < t13 < 1.0 && o == Abs(Orient3(Vec3(0.0, t02, 0.0), Vec3(0.0, 0.0, t03), Vec3(1.0 - t12, t12, 0.0), Zero))
    ensures o == t02 * t03 * (1.0 - t12)
  {
    TetSplit01Orient2(t02, t03, t12, t13);
    TetSplit01Piece2(t02, t03, t12, t13, t02 * t03 * (1.0 - t12), Orient3(Vec3(0.0, t02, 0.0), Vec3(0.0, 0.0, t03), Vec3(1.0 - t12, t12, 0.0), Zero));
  }

  lemma {:induction false} TetSplit01At3(t02: real, t03: real, t12: real, t13: real, o: real)
    requires 0.0 < t02 < 1.0 && 0.0 < t03 < 1.0 && 0.0 < t12 < 1.0 && 0.0 < t13 < 1.0 && o == Abs(Orient3(E3, Vec3(0.0, 0.0, t03), Vec3(1.0 - t12, t12, 0.0), Vec3(1.0 - t13, 0.0, t13)))
    ensures o == (1.0 - t03) * t12 * (1.0 - t13)
  {
    TetSplit01Orient3(t02, t03, t12, t13);
    TetSplit01Piece3(t02, t03, t12, t13, (1.0 - t03) * t12 * (1.0 - t13), Orient3(E3, Vec3(0.0, 0.0, t03), Vec3(1.0 - t12, t12, 0.0), Vec3(1.0 - t13, 0.0, t13)));
  }

  lemma {:induction false} TetSplit01At4(t02: real, t03: real, t12: real, t13: real, o: real)
    requires 0.0 < t02 < 1.0 && 0.0 < t03 < 1.0 && 0.0 < t12 < 1.0 && 0.0 < t13 < 1.0 && o == Abs(Orient3(E2, E3, Vec3(0.0, 0.0, t03), Vec3(1.0 - t12, t12, 0.0)))
    ensures o == (1.0 - t03) * (1.0 - t12)
  {
    TetSplit01Orient4(t02, t03, t12, t13);
    TetSplit01Piece4(t02, t03, t12, t13, (1.0 - t03) * (1.0 - t12), Orient3(E2, E3, Vec3(0.0, 0.0, t03), Vec3(1.0 - t12, t12, 0.0)));
  }

  lemma {:induction false} TetSplit01At5(t02: real, t03: real, t12: real, t13: real, o: real)
    requires 0.0 < t02 < 1.0 && 0.0 < t03 < 1.0 && 0.0 < t12 < 1.0 && 0.0 < t13 < 1.0 && o == Abs(Orient3(Vec3(0.0, t02, 0.0), Vec3(0.0, 0.0, t03), Vec3(1.0 - t12, t12, 0.0), E2))
    ensures o == (1.0 - t02) * t03 * (1.0 - t12)
  {
    TetSplit01Orient5(t02, t03, t12, t13);
    TetSplit01Piece5(t02, t03, t12, t13, (1.0 - t02) * t03 * (1.0 - t12), Orient3(Vec3(0.0, t02, 0.0), Vec3(0.0, 0.0, t03), Vec3(1.0 - t12, t12, 0.0), E2));
  }

  lemma {:induction false} TetSplit01InsideSum(X: seq<Vec3>, store: VertexStore,
    x0: Vec3, x1: Vec3, x2: Vec3, x3: Vec3, x4: Vec3, x5: Vec3, x6: Vec3, x7: Vec3,
    v0: real, v1: real, v2: real)
    requires |X| == 8 && X[0] == x0 && X[1] == x1 && X[2] == x2 && X[3] == x3 && X[4] == x4 && X[5] == x5 && X[6] == x6 && X[7] == x7
    requires v0 == Abs(Orient3(x1, x5, x6, x7))
    requires v1 == Abs(Orient3(x0, x1, x5, x6))
    requires v2 == Abs(Orient3(x4, x5, x6, x0))
    ensures AllSimplexBelow([Polytope([1, 5, 6, 7], 2, store), Polytope([0, 1, 5, 6], 3, store), Polytope([4, 5, 6, 0], 2, store)], 3, 8)
    ensures Sum(Orientations(X, [Polytope([1, 5, 6, 7], 2, store), Polytope([0, 1, 5, 6], 3, store), Polytope([4, 5, 6, 0], 2, store)], 3)) == v0 + v1 + v2
  {
    var pieces := [Polytope([1, 5, 6, 7], 2, store), Polytope([0, 1, 5, 6], 3, store), Polytope([4, 5, 6, 0], 2, store)];
    assert AllSimplexBelow(pieces, 3, |X|);
    var os := Orientations(X, pieces, 3);
    assert pieces[0].ia == [1, 5, 6, 7];
    TetOrientationAt(X, pieces, 0, 1, 5, 6, 7, os[0]);
    assert pieces[1].ia == [0, 1, 5, 6];
    TetOrientationAt(X, pieces, 1, 0, 1, 5, 6, os[1]);
    assert pieces[2].ia == [4, 5, 6, 0];
    TetOrientationAt(X, pieces, 2, 4, 5, 6, 0, os[2]);
    SumOfThree(os);
  }

  lemma {:induction false} TetSplit01OutsideSum(X: seq<Vec3>, store: VertexStore,
    x0: Vec3, x1: Vec3, x2: Vec3, x3: Vec3, x4: Vec3, x5: Vec3, x6: Vec3, x7: Vec3,
    v3: real, v4: real, v5: real)
    requires |X| == 8 && X[0] == x0 && X[1] == x1 && X[2] == x2 && X[3] == x3 && X[4] == x4 && X[5] == x5 && X[6] == x6 && X[7] == x7
    requires v3 == Abs(Orient3(x3, x5, x6, x7))
    requires v4 == Abs(Orient3(x2, x3, x5, x6))
    requires v5 == Abs(Orient3(x4, x5, x6, x2))
    ensures AllSimplexBelow([Polytope([3, 5, 6, 7], 2, store), Polytope([2, 3, 5, 6], 3, store), Polytope([4, 5, 6, 2], 2, store)], 3, 8)
    ensures Sum(Orientations(X, [Polytope([3, 5, 6, 7], 2, store), Polytope([2, 3, 5, 6], 3, store), Polytope([4, 5, 6, 2], 2, store)], 3)) == v3 + v4 + v5
  {
    var pieces := [Polytope([3, 5, 6, 7], 2, store), Polytope([2, 3, 5, 6], 3, store), Polytope([4, 5, 6, 2], 2, store)];
    assert AllSimplexBelow(pieces, 3, |X|);
    var os := Orientations(X, pieces, 3);
    assert pieces[0].ia == [3, 5, 6, 7];
    TetOrientationAt(X, pieces, 0, 3, 5, 6, 7, os[0]);
    assert pieces[1].ia == [2, 3, 5, 6];
    TetOrientationAt(X, pieces, 1, 2, 3, 5, 6, os[1]);
    assert pieces[2].ia == [4, 5, 6, 2];
    TetOrientationAt(X, pieces, 2, 4, 5, 6, 2, os[2]);
    SumOfThree(os);
  }

  lemma {:induction false} TetSplit01Total(t02: real, t03: real, t12: real, t13: real, v0: real, v1: real, v2: real, v3: real, v4: real, v5: real)
    requires 0.0 < t02 < 1.0 && 0.0 < t03 < 1.0 && 0.0 < t12 < 1.0 && 0.0 < t13 < 1.0
    requires v0 == Abs(Orient3(E1, Vec3(0.0, 0.0, t03), Vec3(1.0 - t12, t12, 0.0), Vec3(1.0 - t13, 0.0, t13)))
    requires v1 == Abs(Orient3(Zero, E1, Vec3(0.0, 0.0, t03), Vec3(1.0 - t12, t12, 0.0)))
    requires v2 == Abs(Orient3(Vec3(0.0, t02, 0.0), Vec3(0.0, 0.0, t03), Vec3(1.0 - t12, t12, 0.0), Zero))
    requires v3 == Abs(Orient3(E3, Vec3(0.0, 0.0, t03), Vec3(1.0 - t12, t12, 0.0), Vec3(1.0 - t13, 0.0, t13)))
    requires v4 == Abs(Orient3(E2, E3, Vec3(0.0, 0.0, t03), Vec3(1.0 - t12, t12, 0.0)))
    requires v5 == Abs(Orient3(Vec3(0.0, t02, 0.0), Vec3(0.0, 0.0, t03), Vec3(1.0 - t12, t12, 0.0), E2))
    ensures v0 + v1 + v2 + v3 + v4 + v5 == 1.0
  {
    TetSplit01At0(t02, t03, t12, t13, v0);
    TetSplit01At1(t02, t03, t12, t13, v1);
    TetSplit01At2(t02, t03, t12, t13, v2);
    TetSplit01At3(t02, t03, t12, t13, v3);
    TetSplit01At4(t02, t03, t12, t13, v4);
    TetSplit01At5(t02, t03, t12, t13, v5);
    TetSplit01Identity(t02, t03, t12, t13);
  }

  lemma {:induction false} TetSplit01Orientations(x0: Vec3, x1: Vec3, x2: Vec3, x3: Vec3, x4: Vec3, x5: Vec3, x6: Vec3, x7: Vec3, t02: real, t03: real, t12: real, t13: real)
    requires 0.0 < t02 < 1.0 && 0.0 < t03 < 1.0 && 0.0 < t12 < 1.0 && 0.0 < t13 < 1.0
    requires x0 == Zero && x1 == E1 && x2 == E2 && x3 == E3 && x4 == Vec3(0.0, t02, 0.0) && x5 == Vec3(0.0, 0.0, t03) && x6 == Vec3(1.0 - t12, t12, 0.0) && x7 == Vec3(1.0 - t13, 0.0, t13)
    ensures Abs(Orient3(x1, x5, x6, x7)) + Abs(Orient3(x0, x1, x5, x6)) + Abs(Orient3(x4, x5, x6, x0)) + Abs(Orient3(x3, x5, x6, x7)) + Abs(Orient3(x2, x3, x5, x6)) + Abs(Orient3(x4, x5, x6, x2)) == 1.0
  {
    TetSplit01Total(t02, t03, t12, t13, Abs(Orient3(x1, x5, x6, x7)), Abs(Orient3(x0, x1, x5, x6)), Abs(Orient3(x4, x5, x6, x0)), Abs(Orient3(x3, x5, x6, x7)), Abs(Orient3(x2, x3, x5, x6)), Abs(Orient3(x4, x5, x6, x2)));
  }

  lemma {:induction false} TetSplit01Lerp0(t02: real)
    ensures Add(Zero, Scale(t02, Sub(E2, Zero))) == Vec3(0.0, t02, 0.0)
  {
  }

  lemma {:induction false} TetSplit01Lerp1(t03: real)
    ensures Add(Zero, Scale(t03, Sub(E3, Zero))) == Vec3(0.0, 0.0, t03)
  {
  }

  lemma {:induction false} TetSplit01Lerp2(t12: real)
    ensures Add(E1, Scale(t12, Sub(E2, E1))) == Vec3(1.0 - t12, t12, 0.0)
  {
  }

  lemma {:induction false} TetSplit01Lerp3(t13: real)
    ensures Add(E1, Scale(t13, Sub(E3, E1))) == Vec3(1.0 - t13, 0.0, t13)
  {
  }

  lemma {:induction false} TetSplit01Point0(f: seq<real>, V: seq<Vertex>, X: seq<Vec3>)
    requires |f| == 4 && |V| == 4 && V[0].lset == f[0] && V[2].lset == f[2]
    requires CuttablePairs(V, Range(0, 4), [(0, 2), (0, 3), (1, 2), (1, 3)])
    requires X == BaseCoordinates(4) + CutCoordinates(V, BaseCoordinates(4), Range(0, 4), [(0, 2), (0, 3), (1, 2), (1, 3)])
    ensures f[0] != f[2] && X[4] == CutPoint(Zero, E2, f[0], f[2])
  {
    CutCoordinatesIndex(V, BaseCoordinates(4), Range(0, 4), [(0, 2), (0, 3), (1, 2), (1, 3)], X, 0);
    assert Range(0, 4)[0] == 0 && Range(0, 4)[2] == 2;
  }

  lemma {:induction false} TetSplit01Value0(a: real, b: real, x: Vec3)
    requires a != b && x == CutPoint(Zero, E2, a, b)
    ensures x == Vec3(0.0, a / (a - b), 0.0)
  {
    TetSplit01Lerp0(a / (a - b));
  }

  lemma {:induction false} TetSplit01Point1(f: seq<real>, V: seq<Vertex>, X: seq<Vec3>)
    requires |f| == 4 && |V| == 4 && V[0].lset == f[0] && V[3].lset == f[3]
    requires CuttablePairs(V, Range(0, 4), [(0, 2), (0, 3), (1, 2), (1, 3)])
    requires X == BaseCoordinates(4) + CutCoordinates(V, BaseCoordinates(4), Range(0, 4), [(0, 2), (0, 3), (1, 2), (1, 3)])
    ensures f[0] != f[3] && X[5] == CutPoint(Zero, E3, f[0], f[3])
  {
    CutCoordinatesIndex(V, BaseCoordinates(4), Range(0, 4), [(0, 2), (0, 3), (1, 2), (1, 3)], X, 1);
    assert Range(0, 4)[0] == 0 && Range(0, 4)[3] == 3;
  }

  lemma {:induction false} TetSplit01Value1(a: real, b: real, x: Vec3)
    requires a != b && x == CutPoint(Zero, E3, a, b)
    ensures x == Vec3(0.0, 0.0, a / (a - b))
  {
    TetSplit01Lerp1(a / (a - b));
  }

  lemma {:induction false} TetSplit01Point2(f: seq<real>, V: seq<Vertex>, X: seq<Vec3>)
    requires |f| == 4 && |V| == 4 && V[1].lset == f[1] && V[2].lset == f[2]
    requires CuttablePairs(V, Range(0, 4), [(0, 2), (0, 3), (1, 2), (1, 3)])
    requires X == BaseCoordinates(4) + CutCoordinates(V, BaseCoordinates(4), Range(0, 4), [(0, 2), (0, 3), (1, 2), (1, 3)])
    ensures f[1] != f[2] && X[6] == CutPoint(E1, E2, f[1], f[2])
  {
    CutCoordinatesIndex(V, BaseCoordinates(4), Range(0, 4), [(0, 2), (0, 3), (1, 2), (1, 3)], X, 2);
    assert Range(0, 4)[1] == 1 && Range(0, 4)[2] == 2;
  }

  lemma {:induction false} TetSplit01Value2(a: real, b: real, x: Vec3)
    requires a != b && x == CutPoint(E1, E2, a, b)
    ensures x == Vec3(1.0 - a / (a - b), a / (a - b), 0.0)
  {
    TetSplit01Lerp2(a / (a - b));
  }

  lemma {:induction false} TetSplit01Point3(f: seq<real>, V: seq<Vertex>, X: seq<Vec3>)
    requires |f| == 4 && |V| == 4 && V[1].lset == f[1] && V[3].lset == f[3]
    requires CuttablePairs(V, Range(0, 4), [(0, 2), (0, 3), (1, 2), (1, 3)])
    requires X == BaseCoordinates(4) + CutCoordinates(V, BaseCoordinates(4), Range(0, 4), [(0, 2), (0, 3), (1, 2), (1, 3)])
    ensures f[1] != f[3] && X[7] == CutPoint(E1, E3, f[1], f[3])
  {
    CutCoordinatesIndex(V, BaseCoordinates(4), Range(0, 4), [(0, 2), (0, 3), (1, 2), (1, 3)], X, 3);
    assert Range(0, 4)[1] == 1 && Range(0, 4)[3] == 3;
  }

  lemma {:induction false} TetSplit01Value3(a: real, b: real, x: Vec3)
    requires a != b && x == CutPoint(E1, E3, a, b)
    ensures x == Vec3(1.0 - a / (a - b), 0.0, a / (a - b))
  {
    TetSplit01Lerp3(a / (a - b));
  }

  lemma {:induction false} TetSplit01Coordinates(f: seq<real>, V: seq<Vertex>, dt: DomainType, X: seq<Vec3>)
    returns (t02: real, t03: real, t12: real, t13: real, x0: Vec3, x1: Vec3, x2: Vec3, x3: Vec3, x4: Vec3, x5: Vec3, x6: Vec3, x7: Vec3)
    requires |f| == 4 && |V| == 4 && forall i :: 0 <= i < 4 ==> V[i].lset == f[i]
    requires dt != IF && IsRelevant(dt, f[0]) && IsRelevant(dt, f[1]) && IsRelevant(Opposite(dt), f[2]) && IsRelevant(Opposite(dt), f[3])
    requires CuttablePairs(V, Range(0, 4), [(0, 2), (0, 3), (1, 2), (1, 3)])
    requires X == BaseCoordinates(4) + CutCoordinates(V, BaseCoordinates(4), Range(0, 4), [(0, 2), (0, 3), (1, 2), (1, 3)])
    ensures |X| == 8 && X[0] == x0 && X[1] == x1 && X[2] == x2 && X[3] == x3 && X[4] == x4 && X[5] == x5 && X[6] == x6 && X[7] == x7
    ensures 0.0 < t02 < 1.0 && 0.0 < t03 < 1.0 && 0.0 < t12 < 1.0 && 0.0 < t13 < 1.0
    ensures x0 == Zero && x1 == E1 && x2 == E2 && x3 == E3 && x4 == Vec3(0.0, t02, 0.0) && x5 == Vec3(0.0, 0.0, t03) && x6 == Vec3(1.0 - t12, t12, 0.0) && x7 == Vec3(1.0 - t13, 0.0, t13)
  {
    TetSplit01Point0(f, V, X);
    TetSplit01Value0(f[0], f[2], X[4]);
    CutParameterBounds(f[0], f[2]);
    TetSplit01Point1(f, V, X);
    TetSplit01Value1(f[0], f[3], X[5]);
    CutParameterBounds(f[0], f[3]);
    TetSplit01Point2(f, V, X);
    TetSplit01Value2(f[1], f[2], X[6]);
    CutParameterBounds(f[1], f[2]);
    TetSplit01Point3(f, V, X);
    TetSplit01Value3(f[1], f[3], X[7]);
    CutParameterBounds(f[1], f[3]);
    t02 := f[0] / (f[0] - f[2]);
    t03 := f[0] / (f[0] - f[3]);
    t12 := f[1] / (f[1] - f[2]);
    t13 := f[1] / (f[1] - f[3]);
    x0, x1, x2, x3, x4, x5, x6, x7 := Zero, E1, E2, E3, Vec3(0.0, t02, 0.0), Vec3(0.0, 0.0, t03), Vec3(1.0 - t12, t12, 0.0), Vec3(1.0 - t13, 0.0, t13);
  }

  /** The measures of both domains' pieces add up to one when vertices 0 and 1 alone lie in domain dt. */
  lemma {:induction false} TetSplit01Measure(f: seq<real>, V: seq<Vertex>, store: VertexStore, dt: DomainType, X: seq<Vec3>)
    requires |f| == 4 && |V| == 4 && forall i :: 0 <= i < 4 ==> V[i].lset == f[i]
    requires dt != IF && TestsAgree(f)
    requires IsRelevant(dt, f[0]) && IsRelevant(dt, f[1]) && IsRelevant(Opposite(dt), f[2]) && IsRelevant(Opposite(dt), f[3])
    requires CuttablePairs(V, Range(0, 4), CutPairs(f))
    requires X == BaseCoordinates(4) + CutCoordinates(V, BaseCoordinates(4), Range(0, 4), CutPairs(f))
    ensures |X| == 8
    ensures AllSimplexBelow([Polytope([1, 5, 6, 7], 2, store), Polytope([0, 1, 5, 6], 3, store), Polytope([4, 5, 6, 0], 2, store)], 3, 8) && AllSimplexBelow([Polytope([3, 5, 6, 7], 2, store), Polytope([2, 3, 5, 6], 3, store), Polytope([4, 5, 6, 2], 2, store)], 3, 8)
    ensures Sum(Orientations(X, [Polytope([1, 5, 6, 7], 2, store), Polytope([0, 1, 5, 6], 3, store), Polytope([4, 5, 6, 0], 2, store)], 3)) + Sum(Orientations(X, [Polytope([3, 5, 6, 7], 2, store), Polytope([2, 3, 5, 6], 3, store), Polytope([4, 5, 6, 2], 2, store)], 3)) == 1.0
  {
    TetSplit01Cut(f, dt);
    var t02, t03, t12, t13, x0, x1, x2, x3, x4, x5, x6, x7 := TetSplit01Coordinates(f, V, dt, X);
    TetSplit01Orientations(x0, x1, x2, x3, x4, x5, x6, x7, t02, t03, t12, t13);
    TetSplit01InsideSum(X, store, x0, x1, x2, x3, x4, x5, x6, x7,
      Abs(Orient3(x1, x5, x6, x7)),
      Abs(Orient3(x0, x1, x5, x6)),
      Abs(Orient3(x4, x5, x6, x0)));
    TetSplit01OutsideSum(X, store, x0, x1, x2, x3, x4, x5, x6, x7,
      Abs(Orient3(x3, x5, x6, x7)),
      Abs(Orient3(x2, x3, x5, x6)),
      Abs(Orient3(x4, x5, x6, x2)));
  }

  /**
   * When vertices 0 and 1 alone lie in domain dt, the table's pieces of both
   * domains have absolute orientations that add up to one.
   */
  lemma {:induction false} TetSplit01(f: seq<real>, V: seq<Vertex>, store: VertexStore, dt: DomainType, X: seq<Vec3>)
    requires |f| == 4 && |V| == 4 && forall i :: 0 <= i < 4 ==> V[i].lset == f[i]
    requires dt != IF && TestsAgree(f)
    requires IsRelevant(dt, f[0]) && IsRelevant(dt, f[1]) && IsRelevant(Opposite(dt), f[2]) && IsRelevant(Opposite(dt), f[3])
    requires CuttablePairs(V, Range(0, 4), CutPairs(f))
    requires X == BaseCoordinates(4) + CutCoordinates(V, BaseCoordinates(4), Range(0, 4), CutPairs(f))
    ensures CutPairs(f) == [(0, 2), (0, 3), (1, 2), (1, 3)] && |X| == 8
    ensures Decompose(dt, 3, f, Polytope(Range(4, 4), 2, store)) == Ok([Polytope([1, 5, 6, 7], 2, store), Polytope([0, 1, 5, 6], 3, store), Polytope([4, 5, 6, 0], 2, store)])
    ensures Decompose(Opposite(dt), 3, f, Polytope(Range(4, 4), 2, store)) == Ok([Polytope([3, 5, 6, 7], 2, store), Polytope([2, 3, 5, 6], 3, store), Polytope([4, 5, 6, 2], 2, store)])
    ensures AllSimplexBelow([Polytope([1, 5, 6, 7], 2, store), Polytope([0, 1, 5, 6], 3, store), Polytope([4, 5, 6, 0], 2, store)], 3, 8) && AllSimplexBelow([Polytope([3, 5, 6, 7], 2, store), Polytope([2, 3, 5, 6], 3, store), Polytope([4, 5, 6, 2], 2, store)], 3, 8)
    ensures Sum(Orientations(X, [Polytope([1, 5, 6, 7], 2, store), Polytope([0, 1, 5, 6], 3, store), Polytope([4, 5, 6, 0], 2, store)], 3)) + Sum(Orientations(X, [Polytope([3, 5, 6, 7], 2, store), Polytope([2, 3, 5, 6], 3, store), Polytope([4, 5, 6, 2], 2, store)], 3)) == 1.0
  {
    TetSplit01Pieces(f, store, dt);
    TetSplit01Measure(f, V, store, dt, X);
  }

  /** The same, stated for the positive and the negative domain. */
  lemma {:induction false} TetSplit01Tiles(f: seq<real>, V: seq<Vertex>, store: VertexStore, dt: DomainType, X: seq<Vec3>)
    requires |f| == 4 && |V| == 4 && forall i :: 0 <= i < 4 ==> V[i].lset == f[i]
    requires dt != IF && TestsAgree(f)
    requires IsRelevant(dt, f[0]) && IsRelevant(dt, f[1]) && IsRelevant(Opposite(dt), f[2]) && IsRelevant(Opposite(dt), f[3])
    requires CuttablePairs(V, Range(0, 4), CutPairs(f))
    requires X == BaseCoordinates(4) + CutCoordinates(V, BaseCoordinates(4), Range(0, 4), CutPairs(f))
    ensures PiecesTile(f, 3, Polytope(Range(4, |CutPairs(f)|), 2, store), X)
  {
    TetSplit01Pieces(f, store, dt);
    TetSplit01Measure(f, V, store, dt, X);
    ListsTile(f, 3, Polytope(Range(4, 4), 2, store), X, dt, [Polytope([1, 5, 6, 7], 2, store), Polytope([0, 1, 5, 6], 3, store), Polytope([4, 5, 6, 0], 2, store)], [Polytope([3, 5, 6, 7], 2, store), Polytope([2, 3, 5, 6], 3, store), Polytope([4, 5, 6, 2], 2, store)]);
  }

  /** The cut pairs when vertices 0 and 2 alone lie in domain dt. */
  lemma {:induction false} TetSplit02Cut(f: seq<real>, dt: DomainType)
    requires |f| == 4 && dt != IF && TestsAgree(f)
    requires IsRelevant(dt, f[0]) && IsRelevant(dt, f[2]) && IsRelevant(Opposite(dt), f[1]) && IsRelevant(Opposite(dt), f[3])
    ensures CutPairs(f) == [(0, 1), (0, 3), (1, 2), (2, 3)]
  {
    CutPairsAgree(f);
    StrictPairsOfFour(f);
    assert PairIf(f, 0, 1) == [(0, 1)];
    assert PairIf(f, 0, 2) == [];
    assert PairIf(f, 0, 3) == [(0, 3)];
    assert PairIf(f, 1, 2) == [(1, 2)];
    assert PairIf(f, 1, 3) == [];
    assert PairIf(f, 2, 3) == [(2, 3)];
  }

  /** The relevant vertices of both domains when vertices 0 and 2 alone lie in domain dt. */
  lemma {:induction false} TetSplit02Relevant(f: seq<real>, dt: DomainType)
    requires |f| == 4 && dt != IF
    requires IsRelevant(dt, f[0]) && IsRelevant(dt, f[2]) && IsRelevant(Opposite(dt), f[1]) && IsRelevant(Opposite(dt), f[3])
    ensures RelevantUpTo(dt, f, 4) == [0, 2] && RelevantUpTo(Opposite(dt), f, 4) == [1, 3]
  {
    RelevantAre02Of4(dt, f);
    RelevantAre13Of4(Opposite(dt), f);
  }

  lemma {:induction false} TetSplit02InsideTable(store: VertexStore)
    ensures VolumeTable(3, Polytope(Range(4, 4), 2, store), [0, 2]) == Ok([Polytope([2, 5, 6, 7], 2, store), Polytope([0, 2, 5, 6], 3, store), Polytope([4, 5, 6, 0], 2, store)])
  {
    assert Range(4, 4) == [4, 5, 6, 7];
    assert [4, 5, 6, 7][0 := 2] == [2, 5, 6, 7];
    assert [0, 2] + [5, 6] == [0, 2, 5, 6];
    assert [4, 5, 6, 7][3 := 0] == [4, 5, 6, 0];
  }

  lemma {:induction false} TetSplit02Inside(f: seq<real>, store: VertexStore, dt: DomainType)
    requires |f| == 4 && dt != IF
    requires IsRelevant(dt, f[0]) && IsRelevant(dt, f[2]) && IsRelevant(Opposite(dt), f[1]) && IsRelevant(Opposite(dt), f[3])
    ensures Decompose(dt, 3, f, Polytope(Range(4, 4), 2, store)) == Ok([Polytope([2, 5, 6, 7], 2, store), Polytope([0, 2, 5, 6], 3, store), Polytope([4, 5, 6, 0], 2, store)])
  {
    TetSplit02Relevant(f, dt);
    DecomposeVolume(dt, 3, f, Polytope(Range(4, 4), 2, store), [0, 2]);
    TetSplit02InsideTable(store);
  }

  lemma {:induction false} TetSplit02OutsideTable(store: VertexStore)
    ensures VolumeTable(3, Polytope(Range(4, 4), 2, store), [1, 3]) == Ok([Polytope([3, 5, 6, 7], 2, store), Polytope([1, 3, 5, 6], 3, store), Polytope([4, 5, 6, 1], 2, store)])
  {
    assert Range(4, 4) == [4, 5, 6, 7];
    assert [4, 5, 6, 7][0 := 3] == [3, 5, 6, 7];
    assert [1, 3] + [5, 6] == [1, 3, 5, 6];
    assert [4, 5, 6, 7][3 := 1] == [4, 5, 6, 1];
  }

  lemma {:induction false} TetSplit02Outside(f: seq<real>, store: VertexStore, dt: DomainType)
    requires |f| == 4 && dt != IF
    requires IsRelevant(dt, f[0]) && IsRelevant(dt, f[2]) && IsRelevant(Opposite(dt), f[1]) && IsRelevant(Opposite(dt), f[3])
    ensures Decompose(Opposite(dt), 3, f, Polytope(Range(4, 4), 2, store)) == Ok([Polytope([3, 5, 6, 7], 2, store), Polytope([1, 3, 5, 6], 3, store), Polytope([4, 5, 6, 1], 2, store)])
  {
    TetSplit02Relevant(f, dt);
    DecomposeVolume(Opposite(dt), 3, f, Polytope(Range(4, 4), 2, store), [1, 3]);
    TetSplit02OutsideTable(store);
  }

  /** The cut and the table entries when vertices 0 and 2 alone lie in domain dt. */
  lemma {:induction false} TetSplit02Pieces(f: seq<real>, store: VertexStore, dt: DomainType)
    requires |f| == 4 && dt != IF && TestsAgree(f)
    requires IsRelevant(dt, f[0]) && IsRelevant(dt, f[2]) && IsRelevant(Opposite(dt), f[1]) && IsRelevant(Opposite(dt), f[3])
    ensures CutPairs(f) == [(0, 1), (0, 3), (1, 2), (2, 3)]
    ensures Decompose(dt, 3, f, Polytope(Range(4, 4), 2, store)) == Ok([Polytope([2, 5, 6, 7], 2, store), Polytope([0, 2, 5, 6], 3, store), Polytope([4, 5, 6, 0], 2, store)])
    ensures Decompose(Opposite(dt), 3, f, Polytope(Range(4, 4), 2, store)) == Ok([Polytope([3, 5, 6, 7], 2, store), Polytope([1, 3, 5, 6], 3, store), Polytope([4, 5, 6, 1], 2, store)])
  {
    TetSplit02Cut(f, dt);
    TetSplit02Inside(f, store, dt);
    TetSplit02Outside(f, store, dt);
  }

  lemma TetSplit02Orient0(t01: real, t03: real, t12: real, t23: real)
    ensures Orient3(E2, Vec3(0.0, 0.0, t03), Vec3(1.0 - t12, t12, 0.0), Vec3(0.0, 1.0 - t23, t23)) == -((1.0 - t03) * (1.0 - t12) * t23)
  {
    assert Orient3(E2, Vec3(0.0, 0.0, t03), Vec3(1.0 - t12, t12, 0.0), Vec3(0.0, 1.0 - t23, t23)) == -t23 + t03 * t23 + t12 * t23 - t03 * t12 * t23 by {
      assert Sub(Vec3(0.0, 1.0 - t23, t23), E2) == Vec3(0.0, -t23, t23);
      assert Sub(Vec3(1.0 - t12, t12, 0.0), E2) == Vec3(1.0 - t12, -1.0 + t12, 0.0);
      assert Sub(Vec3(0.0, 0.0, t03), E2) == Vec3(0.0, -1.0, t03);
      assert Orient3(E2, Vec3(0.0, 0.0, t03), Vec3(1.0 - t12, t12, 0.0), Vec3(0.0, 1.0 - t23, t23)) == -(-t23) * ((1.0 - t12) * t03) + t23 * ((1.0 - t12) * (-1.0));
    }
  }

  lemma TetSplit02Piece0(t01: real, t03: real, t12: real, t23: real, p: real, o: real)
    requires 0.0 < t01 < 1.0 && 0.0 < t03 < 1.0 && 0.0 < t12 < 1.0 && 0.0 < t23 < 1.0 && p == (1.0 - t03) * (1.0 - t12) * t23 && o == -p
    ensures p > 0.0 && Abs(o) == p
  {
    PositiveThreeFactors((1.0 - t03), (1.0 - t12), t23, p);
  }

  lemma TetSplit02Orient1(t01: real, t03: real, t12: real, t23: real)
    ensures Orient3(Zero, E2, Vec3(0.0, 0.0, t03), Vec3(1.0 - t12, t12, 0.0)) == -(t03 * (1.0 - t12))
  {
    assert Orient3(Zero, E2, Vec3(0.0, 0.0, t03), Vec3(1.0 - t12, t12, 0.0)) == -t03 + t03 * t12 by {
      assert Sub(Vec3(1.0 - t12, t12, 0.0), Zero) == Vec3(1.0 - t12, t12, 0.0);
      assert Sub(Vec3(0.0, 0.0, t03), Zero) == Vec3(0.0, 0.0, t03);
      assert Sub(E2, Zero) == Vec3(0.0, 1.0, 0.0);
      assert Orient3(Zero, E2, Vec3(0.0, 0.0, t03), Vec3(1.0 - t12, t12, 0.0)) == (1.0 - t12) * -(t03 * 1.0);
    }
  }

  lemma TetSplit02Piece1(t01: real, t03: real, t12: real, t23: real, p: real, o: real)
    requires 0.0 < t01 < 1.0 && 0.0 < t03 < 1.0 && 0.0 < t12 < 1.0 && 0.0 < t23 < 1.0 && p == t03 * (1.0 - t12) && o == -p
    ensures p > 0.0 && Abs(o) == p
  {
    PositiveTwoFactors(t03, (1.0 - t12), p);
  }

  lemma TetSplit02Orient2(t01: real, t03: real, t12: real, t23: real)
    ensures Orient3(Vec3(t01, 0.0, 0.0), Vec3(0.0, 0.0, t03), Vec3(1.0 - t12, t12, 0.0), Zero) == -(t01 * t03 * t12)
  {
    assert Orient3(Vec3(t01, 0.0, 0.0), Vec3(0.0, 0.0, t03), Vec3(1.0 - t12, t12, 0.0), Zero) == -t01 * t03 * t12 by {
      assert Sub(Zero, Vec3(t01, 0.0, 0.0)) == Vec3(-t01, 0.0, 0.0);
      assert Sub(Vec3(1.0 - t12, t12, 0.0), Vec3(t01, 0.0, 0.0)) == Vec3(1.0 - t01 - t12, t12, 0.0);
      assert Sub(Vec3(0.0, 0.0, t03), Vec3(t01, 0.0, 0.0)) == Vec3(-t01, 0.0, t03);
      assert Orient3(Vec3(t01, 0.0, 0.0), Vec3(0.0, 0.0, t03), Vec3(1.0 - t12, t12, 0.0), Zero) == (-t01) * (t12 * t03);
    }
  }

  lemma TetSplit02Piece2(t01: real, t03: real, t12: real, t23: real, p: real, o: real)
    requires 0.0 < t01 < 1.0 && 0.0 < t03 < 1.0 && 0.0 < t12 < 1.0 && 0.0 < t23 < 1.0 && p == t01 * t03 * t12 && o == -p
    ensures p > 0.0 && Abs(o) == p
  {
    PositiveThreeFactors(t01, t03, t12, p);
  }

  lemma TetSplit02Orient3(t01: real, t03: real, t12: real, t23: real)
    ensures Orient3(E3, Vec3(0.0, 0.0, t03), Vec3(1.0 - t12, t12, 0.0), Vec3(0.0, 1.0 - t23, t23)) == (1.0 - t03) * (1.0 - t12) * (1.0 - t23)
  {
    assert Orient3(E3, Vec3(0.0, 0.0, t03), Vec3(1.0 - t12, t12, 0.0), Vec3(0.0, 1.0 - t23, t23)) == 1.0 - t03 - t12 - t23 + t03 * t12 + t03 * t23 + t12 * t23 - t03 * t12 * t23 by {
      assert Sub(Vec3(0.0, 1.0 - t23, t23), E3) == Vec3(0.0, 1.0 - t23, -1.0 + t23);
      assert Sub(Vec3(1.0 - t12, t12, 0.0), E3) == Vec3(1.0 - t12, t12, -1.0);
      assert Sub(Vec3(0.0, 0.0, t03), E3) == Vec3(0.0, 0.0, -1.0 + t03);
      assert Orient3(E3, Vec3(0.0, 0.0, t03), Vec3(1.0 - t12, t12, 0.0), Vec3(0.0, 1.0 - t23, t23)) == -(1.0 - t23) * ((1.0 - t12) * (-1.0 + t03));
    }
  }

  lemma TetSplit02Piece3(t01: real, t03: real, t12: real, t23: real, p: real, o: real)
    requires 0.0 < t01 < 1.0 && 0.0 < t03 < 1.0 && 0.0 < t12 < 1.0 && 0.0 < t23 < 1.0 && p == (1.0 - t03) * (1.0 - t12) * (1.0 - t23) && o == p
    ensures p > 0.0 && Abs(o) == p
  {
    PositiveThreeFactors((1.0 - t03), (1.0 - t12), (1.0 - t23), p);
  }

  lemma TetSplit02Orient4(t01: real, t03: real, t12: real, t23: real)
    ensures Orient3(E1, E3, Vec3(0.0, 0.0, t03), Vec3(1.0 - t12, t12, 0.0)) == (1.0 - t03) * t12
  {
    assert Orient3(E1, E3, Vec3(0.0, 0.0, t03), Vec3(1.0 - t12, t12, 0.0)) == t12 - t03 * t12 by {
      assert Sub(Vec3(1.0 - t12, t12, 0.0), E1) == Vec3(-t12, t12, 0.0);
      assert Sub(Vec3(0.0, 0.0, t03), E1) == Vec3(-1.0, 0.0, t03);
      assert Sub(E3, E1) == Vec3(-1.0, 0.0, 1.0);
      assert Orient3(E1, E3, Vec3(0.0, 0.0, t03), Vec3(1.0 - t12, t12, 0.0)) == -t12 * ((-1.0) * 1.0 - t03 * (-1.0));
    }
  }

  lemma TetSplit02Piece4(t01: real, t03: real, t12: real, t23: real, p: real, o: real)
    requires 0.0 < t01 < 1.0 && 0.0 < t03 < 1.0 && 0.0 < t12 < 1.0 && 0.0 < t23 < 1.0 && p == (1.0 - t03) * t12 && o == p
    ensures p > 0.0 && Abs(o) == p
  {
    PositiveTwoFactors((1.0 - t03), t12, p);
  }

  lemma TetSplit02Orient5(t01: real, t03: real, t12: real, t23: real)
    ensures Orient3(Vec3(t01, 0.0, 0.0), Vec3(0.0, 0.0, t03), Vec3(1.0 - t12, t12, 0.0), E1) == (1.0 - t01) * t03 * t12
  {
    assert Orient3(Vec3(t01, 0.0, 0.0), Vec3(0.0, 0.0, t03), Vec3(1.0 - t12, t12, 0.0), E1) == t03 * t12 - t01 * t03 * t12 by {
      assert Sub(E1, Vec3(t01, 0.0, 0.0)) == Vec3(1.0 - t01, 0.0, 0.0);
      assert Sub(Vec3(1.0 - t12, t12, 0.0), Vec3(t01, 0.0, 0.0)) == Vec3(1.0 - t01 - t12, t12, 0.0);
      assert Sub(Vec3(0.0, 0.0, t03), Vec3(t01, 0.0, 0.0)) == Vec3(-t01, 0.0, t03);
      assert Orient3(Vec3(t01, 0.0, 0.0), Vec3(0.0, 0.0, t03), Vec3(1.0 - t12, t12, 0.0), E1) == (1.0 - t01) * (t12 * t03);
    }
  }

  lemma TetSplit02Piece5(t01: real, t03: real, t12: real, t23: real, p: real, o: real)
    requires 0.0 < t01 < 1.0 && 0.0 < t03 < 1.0 && 0.0 < t12 < 1.0 && 0.0 < t23 < 1.0 && p == (1.0 - t01) * t03 * t12 && o == p
    ensures p > 0.0 && Abs(o) == p
  {
    PositiveThreeFactors((1.0 - t01), t03, t12, p);
  }

  lemma {:induction false} TetSplit02Identity(t01: real, t03: real, t12: real, t23: real)
    ensures (1.0 - t03) * (1.0 - t12) * t23 + t03 * (1.0 - t12) + t01 * t03 * t12 + (1.0 - t03) * (1.0 - t12) * (1.0 - t23) + (1.0 - t03) * t12 + (1.0 - t01) * t03 * t12 == 1.0
  {
  }

  lemma {:induction false} TetSplit02At0(t01: real, t03: real, t12: real, t23: real, o: real)
    requires 0.0 < t01 < 1.0 && 0.0 < t03 < 1.0 && 0.0 < t12 < 1.0 && 0.0 < t23 < 1.0 && o == Abs(Orient3(E2, Vec3(0.0, 0.0, t03), Vec3(1.0 - t12, t12, 0.0), Vec3(0.0, 1.0 - t23, t23)))
    ensures o == (1.0 - t03) * (1.0 - t12) * t23
  {
    TetSplit02Orient0(t01, t03, t12, t23);
    TetSplit02Piece0(t01, t03, t12, t23, (1.0 - t03) * (1.0 - t12) * t23, Orient3(E2, Vec3(0.0, 0.0, t03), Vec3(1.0 - t12, t12, 0.0), Vec3(0.0, 1.0 - t23, t23)));
  }

  lemma {:induction false} TetSplit02At1(t01: real, t03: real, t12: real, t23: real, o: real)
    requires 0.0 < t01 < 1.0 && 0.0 < t03 < 1.0 && 0.0 < t12 < 1.0 && 0.0 < t23 < 1.0 && o == Abs(Orient3(Zero, E2, Vec3(0.0, 0.0, t03), Vec3(1.0 - t12, t12, 0.0)))
    ensures o == t03 * (1.0 - t12)
  {
    TetSplit02Orient1(t01, t03, t12, t23);
    TetSplit02Piece1(t01, t03, t12, t23, t03 * (1.0 - t12), Orient3(Zero, E2, Vec3(0.0, 0.0, t03), Vec3(1.0 - t12, t12, 0.0)));
  }

  lemma {:induction false} TetSplit02At2(t01: real, t03: real, t12: real, t23: real, o: real)
    requires 0.0 < t01 < 1.0 && 0.0 < t03 < 1.0 && 0.0 < t12 < 1.0 && 0.0 < t23 < 1.0 && o == Abs(Orient3(Vec3(t01, 0.0, 0.0), Vec3(0.0, 0.0, t03), Vec3(1.0 - t12, t12, 0.0), Zero))
    ensures o == t01 * t03 * t12
  {
    TetSplit02Orient2(t01, t03, t12, t23);
    TetSplit02Piece2(t01, t03, t12, t23, t01 * t03 * t12, Orient3(Vec3(t01, 0.0, 0.0), Vec3(0.0, 0.0, t03), Vec3(1.0 - t12, t12, 0.0), Zero));
  }

  lemma {:induction false} TetSplit02At3(t01: real, t03: real, t12: real, t23: real, o: real)
    requires 0.0 < t01 < 1.0 && 0.0 < t03 < 1.0 && 0.0 < t12 < 1.0 && 0.0 < t23 < 1.0 && o == Abs(Orient3(E3, Vec3(0.0, 0.0, t03), Vec3(1.0 - t12, t12, 0.0), Vec3(0.0, 1.0 - t23, t23)))
    ensures o == (1.0 - t03) * (1.0 - t12) * (1.0 - t23)
  {
    TetSplit02Orient3(t01, t03, t12, t23);
    TetSplit02Piece3(t01, t03, t12, t23, (1.0 - t03) * (1.0 - t12) * (1.0 - t23), Orient3(E3, Vec3(0.0, 0.0, t03), Vec3(1.0 - t12, t12, 0.0), Vec3(0.0, 1.0 - t23, t23)));
  }

  lemma {:induction false} TetSplit02At4(t01: real, t03: real, t12: real, t23: real, o: real)
    requires 0.0 < t01 < 1.0 && 0.0 < t03 < 1.0 && 0.0 < t12 < 1.0 && 0.0 < t23 < 1.0 && o == Abs(Orient3(E1, E3, Vec3(0.0, 0.0, t03), Vec3(1.0 - t12, t12, 0.0)))
    ensures o == (1.0 - t03) * t12
  {
    TetSplit02Orient4(t01, t03, t12, t23);
    TetSplit02Piece4(t01, t03, t12, t23, (1.0 - t03) * t12, Orient3(E1, E3, Vec3(0.0, 0.0, t03), Vec3(1.0 - t12, t12, 0.0)));
  }

  lemma {:induction false} TetSplit02At5(t01: real, t03: real, t12: real, t23: real, o: real)
    requires 0.0 < t01 < 1.0 && 0.0 < t03 < 1.0 && 0.0 < t12 < 1.0 && 0.0 < t23 < 1.0 && o == Abs(Orient3(Vec3(t01, 0.0, 0.0), Vec3(0.0, 0.0, t03), Vec3(1.0 - t12, t12, 0.0), E1))
    ensures o == (1.0 - t01) * t03 * t12
  {
    TetSplit02Orient5(t01, t03, t12, t23);
    TetSplit02Piece5(t01, t03, t12, t23, (1.0 - t01) * t03 * t12, Orient3(Vec3(t01, 0.0, 0.0), Vec3(0.0, 0.0, t03), Vec3(1.0 - t12, t12, 0.0), E1));
  }

  lemma {:induction false} TetSplit02InsideSum(X: seq<Vec3>, store: VertexStore,
    x0: Vec3, x1: Vec3, x2: Vec3, x3: Vec3, x4: Vec3, x5: Vec3, x6: Vec3, x7: Vec3,
    v0: real, v1: real, v2: real)
    requires |X| == 8 && X[0] == x0 && X[1] == x1 && X[2] == x2 && X[3] == x3 && X[4] == x4 && X[5] == x5 && X[6] == x6 && X[7] == x7
    requires v0 == Abs(Orient3(x2, x5, x6, x7))
    requires v1 == Abs(Orient3(x0, x2, x5, x6))
    requires v2 == Abs(Orient3(x4, x5, x6, x0))
    ensures AllSimplexBelow([Polytope([2, 5, 6, 7], 2, store), Polytope([0, 2, 5, 6], 3, store), Polytope([4, 5, 6, 0], 2, store)], 3, 8)
    ensures Sum(Orientations(X, [Polytope([2, 5, 6, 7], 2, store), Polytope([0, 2, 5, 6], 3, store), Polytope([4, 5, 6, 0], 2, store)], 3)) == v0 + v1 + v2
  {
    var pieces := [Polytope([2, 5, 6, 7], 2, store), Polytope([0, 2, 5, 6], 3, store), Polytope([4, 5, 6, 0], 2, store)];
    assert AllSimplexBelow(pieces, 3, |X|);
    var os := Orientations(X, pieces, 3);
    assert pieces[0].ia == [2, 5, 6, 7];
    TetOrientationAt(X, pieces, 0, 2, 5, 6, 7, os[0]);
    assert pieces[1].ia == [0, 2, 5, 6];
    TetOrientationAt(X, pieces, 1, 0, 2, 5, 6, os[1]);
    assert pieces[2].ia == [4, 5, 6, 0];
    TetOrientationAt(X, pieces, 2, 4, 5, 6, 0, os[2]);
    SumOfThree(os);
  }

  lemma {:induction false} TetSplit02OutsideSum(X: seq<Vec3>, store: VertexStore,
    x0: Vec3, x1: Vec3, x2: Vec3, x3: Vec3, x4: Vec3, x5: Vec3, x6: Vec3, x7: Vec3,
    v3: real, v4: real, v5: real)
    requires |X| == 8 && X[0] == x0 && X[1] == x1 && X[2] == x2 && X[3] == x3 && X[4] == x4 && X[5] == x5 && X[6] == x6 && X[7] == x7
    requires v3 == Abs(Orient3(x3, x5, x6, x7))
    requires v4 == Abs(Orient3(x1, x3, x5, x6))
    requires v5 == Abs(Orient3(x4, x5, x6, x1))
    ensures AllSimplexBelow([Polytope([3, 5, 6, 7], 2, store), Polytope([1, 3, 5, 6], 3, store), Polytope([4, 5, 6, 1], 2, store)], 3, 8)
    ensures Sum(Orientations(X, [Polytope([3, 5, 6, 7], 2, store), Polytope([1, 3, 5, 6], 3, store), Polytope([4, 5, 6, 1], 2, store)], 3)) == v3 + v4 + v5
  {
    var pieces := [Polytope([3, 5, 6, 7], 2, store), Polytope([1, 3, 5, 6], 3, store), Polytope([4, 5, 6, 1], 2, store)];
    assert AllSimplexBelow(pieces, 3, |X|);
    var os := Orientations(X, pieces, 3);
    assert pieces[0].ia == [3, 5, 6, 7];
    TetOrientationAt(X, pieces, 0, 3, 5, 6, 7, os[0]);
    assert pieces[1].ia == [1, 3, 5, 6];
    TetOrientationAt(X, pieces, 1, 1, 3, 5, 6, os[1]);
    assert pieces[2].ia == [4, 5, 6, 1];
    TetOrientationAt(X, pieces, 2, 4, 5, 6, 1, os[2]);
    SumOfThree(os);
  }

  lemma {:induction false} TetSplit02Total(t01: real, t03: real, t12: real, t23: real, v0: real, v1: real, v2: real, v3: real, v4: real, v5: real)
    requires 0.0 < t01 < 1.0 && 0.0 < t03 < 1.0 && 0.0 < t12 < 1.0 && 0.0 < t23 < 1.0
    requires v0 == Abs(Orient3(E2, Vec3(0.0, 0.0, t03), Vec3(1.0 - t12, t12, 0.0), Vec3(0.0, 1.0 - t23, t23)))
    requires v1 == Abs(Orient3(Zero, E2, Vec3(0.0, 0.0, t03), Vec3(1.0 - t12, t12, 0.0)))
    requires v2 == Abs(Orient3(Vec3(t01, 0.0, 0.0), Vec3(0.0, 0.0, t03), Vec3(1.0 - t12, t12, 0.0), Zero))
    requires v3 == Abs(Orient3(E3, Vec3(0.0, 0.0, t03), Vec3(1.0 - t12, t12, 0.0), Vec3(0.0, 1.0 - t23, t23)))
    requires v4 == Abs(Orient3(E1, E3, Vec3(0.0, 0.0, t03), Vec3(1.0 - t12, t12, 0.0)))
    requires v5 == Abs(Orient3(Vec3(t01, 0.0, 0.0), Vec3(0.0, 0.0, t03), Vec3(1.0 - t12, t12, 0.0), E1))
    ensures v0 + v1 + v2 + v3 + v4 + v5 == 1.0
  {
    TetSplit02At0(t01, t03, t12, t23, v0);
    TetSplit02At1(t01, t03, t12, t23, v1);
    TetSplit02At2(t01, t03, t12, t23, v2);
    TetSplit02At3(t01, t03, t12, t23, v3);
    TetSplit02At4(t01, t03, t12, t23, v4);
    TetSplit02At5(t01, t03, t12, t23, v5);
    TetSplit02Identity(t01, t03, t12, t23);
  }

  lemma {:induction false} TetSplit02Orientations(x0: Vec3, x1: Vec3, x2: Vec3, x3: Vec3, x4: Vec3, x5: Vec3, x6: Vec3, x7: Vec3, t01: real, t03: real, t12: real, t23: real)
    requires 0.0 < t01 < 1.0 && 0.0 < t03 < 1.0 && 0.0 < t12 < 1.0 && 0.0 < t23 < 1.0
    requires x0 == Zero && x1 == E1 && x2 == E2 && x3 == E3 && x4 == Vec3(t01, 0.0, 0.0) && x5 == Vec3(0.0, 0.0, t03) && x6 == Vec3(1.0 - t12, t12, 0.0) && x7 == Vec3(0.0, 1.0 - t23, t23)
    ensures Abs(Orient3(x2, x5, x6, x7)) + Abs(Orient3(x0, x2, x5, x6)) + Abs(Orient3(x4, x5, x6, x0)) + Abs(Orient3(x3, x5, x6, x7)) + Abs(Orient3(x1, x3, x5, x6)) + Abs(Orient3(x4, x5, x6, x1)) == 1.0
  {
    TetSplit02Total(t01, t03, t12, t23, Abs(Orient3(x2, x5, x6, x7)), Abs(Orient3(x0, x2, x5, x6)), Abs(Orient3(x4, x5, x6, x0)), Abs(Orient3(x3, x5, x6, x7)), Abs(Orient3(x1, x3, x5, x6)), Abs(Orient3(x4, x5, x6, x1)));
  }

  lemma {:induction false} TetSplit02Lerp0(t01: real)
    ensures Add(Zero, Scale(t01, Sub(E1, Zero))) == Vec3(t01, 0.0, 0.0)
  {
  }

  lemma {:induction false} TetSplit02Lerp1(t03: real)
    ensures Add(Zero, Scale(t03, Sub(E3, Zero))) == Vec3(0.0, 0.0, t03)
  {
  }

  lemma {:induction false} TetSplit02Lerp2(t12: real)
    ensures Add(E1, Scale(t12, Sub(E2, E1))) == Vec3(1.0 - t12, t12, 0.0)
  {
  }

  lemma {:induction false} TetSplit02Lerp3(t23: real)
    ensures Add(E2, Scale(t23, Sub(E3, E2))) == Vec3(0.0, 1.0 - t23, t23)
  {
  }

  lemma {:induction false} TetSplit02Point0(f: seq<real>, V: seq<Vertex>, X: seq<Vec3>)
    requires |f| == 4 && |V| == 4 && V[0].lset == f[0] && V[1].lset == f[1]
    requires CuttablePairs(V, Range(0, 4), [(0, 1), (0, 3), (1, 2), (2, 3)])
    requires X == BaseCoordinates(4) + CutCoordinates(V, BaseCoordinates(4), Range(0, 4), [(0, 1), (0, 3), (1, 2), (2, 3)])
    ensures f[0] != f[1] && X[4] == CutPoint(Zero, E1, f[0], f[1])
  {
    CutCoordinatesIndex(V, BaseCoordinates(4), Range(0, 4), [(0, 1), (0, 3), (1, 2), (2, 3)], X, 0);
    assert Range(0, 4)[0] == 0 && Range(0, 4)[1] == 1;
  }

  lemma {:induction false} TetSplit02Value0(a: real, b: real, x: Vec3)
    requires a != b && x == CutPoint(Zero, E1, a, b)
    ensures x == Vec3(a / (a - b), 0.0, 0.0)
  {
    TetSplit02Lerp0(a / (a - b));
  }

  lemma {:induction false} TetSplit02Point1(f: seq<real>, V: seq<Vertex>, X: seq<Vec3>)
    requires |f| == 4 && |V| == 4 && V[0].lset == f[0] && V[3].lset == f[3]
    requires CuttablePairs(V, Range(0, 4), [(0, 1), (0, 3), (1, 2), (2, 3)])
    requires X == BaseCoordinates(4) + CutCoordinates(V, BaseCoordinates(4), Range(0, 4), [(0, 1), (0, 3), (1, 2), (2, 3)])
    ensures f[0] != f[3] && X[5] == CutPoint(Zero, E3, f[0], f[3])
  {
    CutCoordinatesIndex(V, BaseCoordinates(4), Range(0, 4), [(0, 1), (0, 3), (1, 2), (2, 3)], X, 1);
    assert Range(0, 4)[0] == 0 && Range(0, 4)[3] == 3;
  }

  lemma {:induction false} TetSplit02Value1(a: real, b: real, x: Vec3)
    requires a != b && x == CutPoint(Zero, E3, a, b)
    ensures x == Vec3(0.0, 0.0, a / (a - b))
  {
    TetSplit02Lerp1(a / (a - b));
  }

  lemma {:induction false} TetSplit02Point2(f: seq<real>, V: seq<Vertex>, X: seq<Vec3>)
    requires |f| == 4 && |V| == 4 && V[1].lset == f[1] && V[2].lset == f[2]
    requires CuttablePairs(V, Range(0, 4), [(0, 1), (0, 3), (1, 2), (2, 3)])
    requires X == BaseCoordinates(4) + CutCoordinates(V, BaseCoordinates(4), Range(0, 4), [(0, 1), (0, 3), (1, 2), (2, 3)])
    ensures f[1] != f[2] && X[6] == CutPoint(E1, E2, f[1], f[2])
  {
    CutCoordinatesIndex(V, BaseCoordinates(4), Range(0, 4), [(0, 1), (0, 3), (1, 2), (2, 3)], X, 2);
    assert Range(0, 4)[1] == 1 && Range(0, 4)[2] == 2;
  }

  lemma {:induction false} TetSplit02Value2(a: real, b: real, x: Vec3)
    requires a != b && x == CutPoint(E1, E2, a, b)
    ensures x == Vec3(1.0 - a / (a - b), a / (a - b), 0.0)
  {
    TetSplit02Lerp2(a / (a - b));
  }

  lemma {:induction false} TetSplit02Point3(f: seq<real>, V: seq<Vertex>, X: seq<Vec3>)
    requires |f| == 4 && |V| == 4 && V[2].lset == f[2] && V[3].lset == f[3]
    requires CuttablePairs(V, Range(0, 4), [(0, 1), (0, 3), (1, 2), (2, 3)])
    requires X == BaseCoordinates(4) + CutCoordinates(V, BaseCoordinates(4), Range(0, 4), [(0, 1), (0, 3), (1, 2), (2, 3)])
    ensures f[2] != f[3] && X[7] == CutPoint(E2, E3, f[2], f[3])
  {
    CutCoordinatesIndex(V, BaseCoordinates(4), Range(0, 4), [(0, 1), (0, 3), (1, 2), (2, 3)], X, 3);
    assert Range(0, 4)[2] == 2 && Range(0, 4)[3] == 3;
  }

  lemma {:induction false} TetSplit02Value3(a: real, b: real, x: Vec3)
    requires a != b && x == CutPoint(E2, E3, a, b)
    ensures x == Vec3(0.0, 1.0 - a / (a - b), a / (a - b))
  {
    TetSplit02Lerp3(a / (a - b));
  }

  lemma {:induction false} TetSplit02Coordinates(f: seq<real>, V: seq<Vertex>, dt: DomainType, X: seq<Vec3>)
    returns (t01: real, t03: real, t12: real, t23: real, x0: Vec3, x1: Vec3, x2: Vec3, x3: Vec3, x4: Vec3, x5: Vec3, x6: Vec3, x7: Vec3)
    requires |f| == 4 && |V| == 4 && forall i :: 0 <= i < 4 ==> V[i].lset == f[i]
    requires dt != IF && IsRelevant(dt, f[0]) && IsRelevant(dt, f[2]) && IsRelevant(Opposite(dt), f[1]) && IsRelevant(Opposite(dt), f[3])
    requires CuttablePairs(V, Range(0, 4), [(0, 1), (0, 3), (1, 2), (2, 3)])
    requires X == BaseCoordinates(4) + CutCoordinates(V, BaseCoordinates(4), Range(0, 4), [(0, 1), (0, 3), (1, 2), (2, 3)])
    ensures |X| == 8 && X[0] == x0 && X[1] == x1 && X[2] == x2 && X[3] == x3 && X[4] == x4 && X[5] == x5 && X[6] == x6 && X[7] == x7
    ensures 0.0 < t01 < 1.0 && 0.0 < t03 < 1.0 && 0.0 < t12 < 1.0 && 0.0 < t23 < 1.0
    ensures x0 == Zero && x1 == E1 && x2 == E2 && x3 == E3 && x4 == Vec3(t01, 0.0, 0.0) && x5 == Vec3(0.0, 0.0, t03) && x6 == Vec3(1.0 - t12, t12, 0.0) && x7 == Vec3(0.0, 1.0 - t23, t23)
  {
    TetSplit02Point0(f, V, X);
    TetSplit02Value0(f[0], f[1], X[4]);
    CutParameterBounds(f[0], f[1]);
    TetSplit02Point1(f, V, X);
    TetSplit02Value1(f[0], f[3], X[5]);
    CutParameterBounds(f[0], f[3]);
    TetSplit02Point2(f, V, X);
    TetSplit02Value2(f[1], f[2], X[6]);
    CutParameterBounds(f[1], f[2]);
    TetSplit02Point3(f, V, X);
    TetSplit02Value3(f[2], f[3], X[7]);
    CutParameterBounds(f[2], f[3]);
    t01 := f[0] / (f[0] - f[1]);
    t03 := f[0] / (f[0] - f[3]);
    t12 := f[1] / (f[1] - f[2]);
    t23 := f[2] / (f[2] - f[3]);
    x0, x1, x2, x3, x4, x5, x6, x7 := Zero, E1, E2, E3, Vec3(t01, 0.0, 0.0), Vec3(0.0, 0.0, t03), Vec3(1.0 - t12, t12, 0.0), Vec3(0.0, 1.0 - t23, t23);
  }

  /** The measures of both domains' pieces add up to one when vertices 0 and 2 alone lie in domain dt. */
  lemma {:induction false} TetSplit02Measure(f: seq<real>, V: seq<Vertex>, store: VertexStore, dt: DomainType, X: seq<Vec3>)
    requires |f| == 4 && |V| == 4 && forall i :: 0 <= i < 4 ==> V[i].lset == f[i]
    requires dt != IF && TestsAgree(f)
    requires IsRelevant(dt, f[0]) && IsRelevant(dt, f[2]) && IsRelevant(Opposite(dt), f[1]) && IsRelevant(Opposite(dt), f[3])
    requires CuttablePairs(V, Range(0, 4), CutPairs(f))
    requires X == BaseCoordinates(4) + CutCoordinates(V, BaseCoordinates(4), Range(0, 4), CutPairs(f))
    ensures |X| == 8
    ensures AllSimplexBelow([Polytope([2, 5, 6, 7], 2, store), Polytope([0, 2, 5, 6], 3, store), Polytope([4, 5, 6, 0], 2, store)], 3, 8) && AllSimplexBelow([Polytope([3, 5, 6, 7], 2, store), Polytope([1, 3, 5, 6], 3, store), Polytope([4, 5, 6, 1], 2, store)], 3, 8)
    ensures Sum(Orientations(X, [Polytope([2, 5, 6, 7], 2, store), Polytope([0, 2, 5, 6], 3, store), Polytope([4, 5, 6, 0], 2, store)], 3)) + Sum(Orientations(X, [Polytope([3, 5, 6, 7], 2, store), Polytope([1, 3, 5, 6], 3, store), Polytope([4, 5, 6, 1], 2, store)], 3)) == 1.0
  {
    TetSplit02Cut(f, dt);
    var t01, t03, t12, t23, x0, x1, x2, x3, x4, x5, x6, x7 := TetSplit02Coordinates(f, V, dt, X);
    TetSplit02Orientations(x0, x1, x2, x3, x4, x5, x6, x7, t01, t03, t12, t23);
    TetSplit02InsideSum(X, store, x0, x1, x2, x3, x4, x5, x6, x7,
      Abs(Orient3(x2, x5, x6, x7)),
      Abs(Orient3(x0, x2, x5, x6)),
      Abs(Orient3(x4, x5, x6, x0)));
    TetSplit02OutsideSum(X, store, x0, x1, x2, x3, x4, x5, x6, x7,
      Abs(Orient3(x3, x5, x6, x7)),
      Abs(Orient3(x1, x3, x5, x6)),
      Abs(Orient3(x4, x5, x6, x1)));
  }

  /**
   * When vertices 0 and 2 alone lie in domain dt, the table's pieces of both
   * domains have absolute orientations that add up to one.
   */
  lemma {:induction false} TetSplit02(f: seq<real>, V: seq<Vertex>, store: VertexStore, dt: DomainType, X: seq<Vec3>)
    requires |f| == 4 && |V| == 4 && forall i :: 0 <= i < 4 ==> V[i].lset == f[i]
    requires dt != IF && TestsAgree(f)
    requires IsRelevant(dt, f[0]) && IsRelevant(dt, f[2]) && IsRelevant(Opposite(dt), f[1]) && IsRelevant(Opposite(dt), f[3])
    requires CuttablePairs(V, Range(0, 4), CutPairs(f))
    requires X == BaseCoordinates(4) + CutCoordinates(V, BaseCoordinates(4), Range(0, 4), CutPairs(f))
    ensures CutPairs(f) == [(0, 1), (0, 3), (1, 2), (2, 3)] && |X| == 8
    ensures Decompose(dt, 3, f, Polytope(Range(4, 4), 2, store)) == Ok([Polytope([2, 5, 6, 7], 2, store), Polytope([0, 2, 5, 6], 3, store), Polytope([4, 5, 6, 0], 2, store)])
    ensures Decompose(Opposite(dt), 3, f, Polytope(Range(4, 4), 2, store)) == Ok([Polytope([3, 5, 6, 7], 2, store), Polytope([1, 3, 5, 6], 3, store), Polytope([4, 5, 6, 1], 2, store)])
    ensures AllSimplexBelow([Polytope([2, 5, 6, 7], 2, store), Polytope([0, 2, 5, 6], 3, store), Polytope([4, 5, 6, 0], 2, store)], 3, 8) && AllSimplexBelow([Polytope([3, 5, 6, 7], 2, store), Polytope([1, 3, 5, 6], 3, store), Polytope([4, 5, 6, 1], 2, store)], 3, 8)
    ensures Sum(Orientations(X, [Polytope([2, 5, 6, 7], 2, store), Polytope([0, 2, 5, 6], 3, store), Polytope([4, 5, 6, 0], 2, store)], 3)) + Sum(Orientations(X, [Polytope([3, 5, 6, 7], 2, store), Polytope([1, 3, 5, 6], 3, store), Polytope([4, 5, 6, 1], 2, store)], 3)) == 1.0
  {
    TetSplit02Pieces(f, store, dt);
    TetSplit02Measure(f, V, store, dt, X);
  }

  /** The same, stated for the positive and the negative domain. */
  lemma {:induction false} TetSplit02Tiles(f: seq<real>, V: seq<Vertex>, store: VertexStore, dt: DomainType, X: seq<Vec3>)
    requires |f| == 4 && |V| == 4 && forall i :: 0 <= i < 4 ==> V[i].lset == f[i]
    requires dt != IF && TestsAgree(f)
    requires IsRelevant(dt, f[0]) && IsRelevant(dt, f[2]) && IsRelevant(Opposite(dt), f[1]) && IsRelevant(Opposite(dt), f[3])
    requires CuttablePairs(V, Range(0, 4), CutPairs(f))
    requires X == BaseCoordinates(4) + CutCoordinates(V, BaseCoordinates(4), Range(0, 4), CutPairs(f))
    ensures PiecesTile(f, 3, Polytope(Range(4, |CutPairs(f)|), 2, store), X)
  {
    TetSplit02Pieces(f, store, dt);
    TetSplit02Measure(f, V, store, dt, X);
    ListsTile(f, 3, Polytope(Range(4, 4), 2, store), X, dt, [Polytope([2, 5, 6, 7], 2, store), Polytope([0, 2, 5, 6], 3, store), Polytope([4, 5, 6, 0], 2, store)], [Polytope([3, 5, 6, 7], 2, store), Polytope([1, 3, 5, 6], 3, store), Polytope([4, 5, 6, 1], 2, store)]);
  }

  /** The cut pairs when vertices 0 and 3 alone lie in domain dt. */
  lemma {:induction false} TetSplit03Cut(f: seq<real>, dt: DomainType)
    requires |f| == 4 && dt != IF && TestsAgree(f)
    requires IsRelevant(dt, f[0]) && IsRelevant(dt, f[3]) && IsRelevant(Opposite(dt), f[1]) && IsRelevant(Opposite(dt), f[2])
    ensures CutPairs(f) == [(0, 1), (0, 2), (1, 3), (2, 3)]
  {
    CutPairsAgree(f);
    StrictPairsOfFour(f);
    assert PairIf(f, 0, 1) == [(0, 1)];
    assert PairIf(f, 0, 2) == [(0, 2)];
    assert PairIf(f, 0, 3) == [];
    assert PairIf(f, 1, 2) == [];
    assert PairIf(f, 1, 3) == [(1, 3)];
    assert PairIf(f, 2, 3) == [(2, 3)];
  }

  /** The relevant vertices of both domains when vertices 0 and 3 alone lie in domain dt. */
  lemma {:induction false} TetSplit03Relevant(f: seq<real>, dt: DomainType)
    requires |f| == 4 && dt != IF
    requires IsRelevant(dt, f[0]) && IsRelevant(dt, f[3]) && IsRelevant(Opposite(dt), f[1]) && IsRelevant(Opposite(dt), f[2])
    ensures RelevantUpTo(dt, f, 4) == [0, 3] && RelevantUpTo(Opposite(dt), f, 4) == [1, 2]
  {
    RelevantAre03Of4(dt, f);
    RelevantAre12Of4(Opposite(dt), f);
  }

  lemma {:induction false} TetSplit03InsideTable(store: VertexStore)
    ensures VolumeTable(3, Polytope(Range(4, 4), 2, store), [0, 3]) == Ok([Polytope([3, 5, 6, 7], 2, store), Polytope([0, 3, 5, 6], 3, store), Polytope([4, 5, 6, 0], 2, store)])
  {
    assert Range(4, 4) == [4, 5, 6, 7];
    assert [4, 5, 6, 7][0 := 3] == [3, 5, 6, 7];
    assert [0, 3] + [5, 6] == [0, 3, 5, 6];
    assert [4, 5, 6, 7][3 := 0] == [4, 5, 6, 0];
  }

  lemma {:induction false} TetSplit03Inside(f: seq<real>, store: VertexStore, dt: DomainType)
    requires |f| == 4 && dt != IF
    requires IsRelevant(dt, f[0]) && IsRelevant(dt, f[3]) && IsRelevant(Opposite(dt), f[1]) && IsRelevant(Opposite(dt), f[2])
    ensures Decompose(dt, 3, f, Polytope(Range(4, 4), 2, store)) == Ok([Polytope([3, 5, 6, 7], 2, store), Polytope([0, 3, 5, 6], 3, store), Polytope([4, 5, 6, 0], 2, store)])
  {
    TetSplit03Relevant(f, dt);
    DecomposeVolume(dt, 3, f, Polytope(Range(4, 4), 2, store), [0, 3]);
    TetSplit03InsideTable(store);
  }

  lemma {:induction false} TetSplit03OutsideTable(store: VertexStore)
    ensures VolumeTable(3, Polytope(Range(4, 4), 2, store), [1, 2]) == Ok([Polytope([2, 5, 6, 7], 2, store), Polytope([1, 2, 5, 6], 3, store), Polytope([4, 5, 6, 1], 2, store)])
  {
    assert Range(4, 4) == [4, 5, 6, 7];
    assert [4, 5, 6, 7][0 := 2] == [2, 5, 6, 7];
    assert [1, 2] + [5, 6] == [1, 2, 5, 6];
    assert [4, 5, 6, 7][3 := 1] == [4, 5, 6, 1];
  }

  lemma {:induction false} TetSplit03Outside(f: seq<real>, store: VertexStore, dt: DomainType)
    requires |f| == 4 && dt != IF
    requires IsRelevant(dt, f[0]) && IsRelevant(dt, f[3]) && IsRelevant(Opposite(dt), f[1]) && IsRelevant(Opposite(dt), f[2])
    ensures Decompose(Opposite(dt), 3, f, Polytope(Range(4, 4), 2, store)) == Ok([Polytope([2, 5, 6, 7], 2, store), Polytope([1, 2, 5, 6], 3, store), Polytope([4, 5, 6, 1], 2, store)])
  {
    TetSplit03Relevant(f, dt);
    DecomposeVolume(Opposite(dt), 3, f, Polytope(Range(4, 4), 2, store), [1, 2]);
    TetSplit03OutsideTable(store);
  }

  /** The cut and the table entries when vertices 0 and 3 alone lie in domain dt. */
  lemma {:induction false} TetSplit03Pieces(f: seq<real>, store: VertexStore, dt: DomainType)
    requires |f| == 4 && dt != IF && TestsAgree(f)
    requires IsRelevant(dt, f[0]) && IsRelevant(dt, f[3]) && IsRelevant(Opposite(dt), f[1]) && IsRelevant(Opposite(dt), f[2])
    ensures CutPairs(f) == [(0, 1), (0, 2), (1, 3), (2, 3)]
    ensures Decompose(dt, 3, f, Polytope(Range(4, 4), 2, store)) == Ok([Polytope([3, 5, 6, 7], 2, store), Polytope([0, 3, 5, 6], 3, store), Polytope([4, 5, 6, 0], 2, store)])
    ensures Decompose(Opposite(dt), 3, f, Polytope(Range(4, 4), 2, store)) == Ok([Polytope([2, 5, 6, 7], 2, store), Polytope([1, 2, 5, 6], 3, store), Polytope([4, 5, 6, 1], 2, store)])
  {
    TetSplit03Cut(f, dt);
    TetSplit03Inside(f, store, dt);
    TetSplit03Outside(f, store, dt);
  }

  lemma TetSplit03Orient0(t01: real, t02: real, t13: real, t23: real)
    ensures Orient3(E3, Vec3(0.0, t02, 0.0), Vec3(1.0 - t13, 0.0, t13), Vec3(0.0, 1.0 - t23, t23)) == (1.0 - t02) * (1.0 - t13) * (1.0 - t23)
  {
    assert Orient3(E3, Vec3(0.0, t02, 0.0), Vec3(1.0 - t13, 0.0, t13), Vec3(0.0, 1.0 - t23, t23)) == 1.0 - t02 - t13 - t23 + t02 * t13 + t02 * t23 + t13 * t23 - t02 * t13 * t23 by {
      assert Sub(Vec3(0.0, 1.0 - t23, t23), E3) == Vec3(0.0, 1.0 - t23, -1.0 + t23);
      assert Sub(Vec3(1.0 - t13, 0.0, t13), E3) == Vec3(1.0 - t13, 0.0, -1.0 + t13);
      assert Sub(Vec3(0.0, t02, 0.0), E3) == Vec3(0.0, t02, -1.0);
      assert Orient3(E3, Vec3(0.0, t02, 0.0), Vec3(1.0 - t13, 0.0, t13), Vec3(0.0, 1.0 - t23, t23)) == -(1.0 - t23) * ((1.0 - t13) * (-1.0)) + (-1.0 + t23) * ((1.0 - t13) * t02);
    }
  }

  lemma TetSplit03Piece0(t01: real, t02: real, t13: real, t23: real, p: real, o: real)
    requires 0.0 < t01 < 1.0 && 0.0 < t02 < 1.0 && 0.0 < t13 < 1.0 && 0.0 < t23 < 1.0 && p == (1.0 - t02) * (1.0 - t13) * (1.0 - t23) && o == p
    ensures p > 0.0 && Abs(o) == p
  {
    PositiveThreeFactors((1.0 - t02), (1.0 - t13), (1.0 - t23), p);
  }

  lemma TetSplit03Orient1(t01: real, t02: real, t13: real, t23: real)
    ensures Orient3(Zero, E3, Vec3(0.0, t02, 0.0), Vec3(1.0 - t13, 0.0, t13)) == t02 * (1.0 - t13)
  {
    assert Orient3(Zero, E3, Vec3(0.0, t02, 0.0), Vec3(1.0 - t13, 0.0, t13)) == t02 - t02 * t13 by {
      assert Sub(Vec3(1.0 - t13, 0.0, t13), Zero) == Vec3(1.0 - t13, 0.0, t13);
      assert Sub(Vec3(0.0, t02, 0.0), Zero) == Vec3(0.0, t02, 0.0);
      assert Sub(E3, Zero) == Vec3(0.0, 0.0, 1.0);
      assert Orient3(Zero, E3, Vec3(0.0, t02, 0.0), Vec3(1.0 - t13, 0.0, t13)) == (1.0 - t13) * (t02 * 1.0);
    }
  }

  lemma TetSplit03Piece1(t01: real, t02: real, t13: real, t23: real, p: real, o: real)
    requires 0.0 < t01 < 1.0 && 0.0 < t02 < 1.0 && 0.0 < t13 < 1.0 && 0.0 < t23 < 1.0 && p == t02 * (1.0 - t13) && o == p
    ensures p > 0.0 && Abs(o) == p
  {
    PositiveTwoFactors(t02, (1.0 - t13), p);
  }

  lemma TetSplit03Orient2(t01: real, t02: real, t13: real, t23: real)
    ensures Orient3(Vec3(t01, 0.0, 0.0), Vec3(0.0, t02, 0.0), Vec3(1.0 - t13, 0.0, t13), Zero) == t01 * t02 * t13
  {
    assert Sub(Zero, Vec3(t01, 0.0, 0.0)) == Vec3(-t01, 0.0, 0.0);
    assert Sub(Vec3(1.0 - t13, 0.0, t13), Vec3(t01, 0.0, 0.0)) == Vec3(1.0 - t01 - t13, 0.0, t13);
    assert Sub(Vec3(0.0, t02, 0.0), Vec3(t01, 0.0, 0.0)) == Vec3(-t01, t02, 0.0);
    assert Orient3(Vec3(t01, 0.0, 0.0), Vec3(0.0, t02, 0.0), Vec3(1.0 - t13, 0.0, t13), Zero) == (-t01) * -(t13 * t02);
  }

  lemma TetSplit03Piece2(t01: real, t02: real, t13: real, t23: real, p: real, o: real)
    requires 0.0 < t01 < 1.0 && 0.0 < t02 < 1.0 && 0.0 < t13 < 1.0 && 0.0 < t23 < 1.0 && p == t01 * t02 * t13 && o == p
    ensures p > 0.0 && Abs(o) == p
  {
    PositiveThreeFactors(t01, t02, t13, p);
  }

  lemma TetSplit03Orient3(t01: real, t02: real, t13: real, t23: real)
    ensures Orient3(E2, Vec3(0.0, t02, 0.0), Vec3(1.0 - t13, 0.0, t13), Vec3(0.0, 1.0 - t23, t23)) == -((1.0 - t02) * (1.0 - t13) * t23)
  {
    assert Orient3(E2, Vec3(0.0, t02, 0.0), Vec3(1.0 - t13, 0.0, t13), Vec3(0.0, 1.0 - t23, t23)) == -t23 + t02 * t23 + t13 * t23 - t02 * t13 * t23 by {
      assert Sub(Vec3(0.0, 1.0 - t23, t23), E2) == Vec3(0.0, -t23, t23);
      assert Sub(Vec3(1.0 - t13, 0.0, t13), E2) == Vec3(1.0 - t13, -1.0, t13);
      assert Sub(Vec3(0.0, t02, 0.0), E2) == Vec3(0.0, -1.0 + t02, 0.0);
      assert Orient3(E2, Vec3(0.0, t02, 0.0), Vec3(1.0 - t13, 0.0, t13), Vec3(0.0, 1.0 - t23, t23)) == t23 * ((1.0 - t13) * (-1.0 + t02));
    }
  }

  lemma TetSplit03Piece3(t01: real, t02: real, t13: real, t23: real, p: real, o: real)
    requires 0.0 < t01 < 1.0 && 0.0 < t02 < 1.0 && 0.0 < t13 < 1.0 && 0.0 < t23 < 1.0 && p == (1.0 - t02) * (1.0 - t13) * t23 && o == -p
    ensures p > 0.0 && Abs(o) == p
  {
    PositiveThreeFactors((1.0 - t02), (1.0 - t13), t23, p);
  }

  lemma TetSplit03Orient4(t01: real, t02: real, t13: real, t23: real)
    ensures Orient3(E1, E2, Vec3(0.0, t02, 0.0), Vec3(1.0 - t13, 0.0, t13)) == -((1.0 - t02) * t13)
  {
    assert Orient3(E1, E2, Vec3(0.0, t02, 0.0), Vec3(1.0 - t13, 0.0, t13)) == -t13 + t02 * t13 by {
      assert Sub(Vec3(1.0 - t13, 0.0, t13), E1) == Vec3(-t13, 0.0, t13);
      assert Sub(Vec3(0.0, t02, 0.0), E1) == Vec3(-1.0, t02, 0.0);
      assert Sub(E2, E1) == Vec3(-1.0, 1.0, 0.0);
      assert Orient3(E1, E2, Vec3(0.0, t02, 0.0), Vec3(1.0 - t13, 0.0, t13)) == t13 * ((-1.0) * 1.0 - t02 * (-1.0));
    }
  }

  lemma TetSplit03Piece4(t01: real, t02: real, t13: real, t23: real, p: real, o: real)
    requires 0.0 < t01 < 1.0 && 0.0 < t02 < 1.0 && 0.0 < t13 < 1.0 && 0.0 < t23 < 1.0 && p == (1.0 - t02) * t13 && o == -p
    ensures p > 0.0 && Abs(o) == p
  {
    PositiveTwoFactors((1.0 - t02), t13, p);
  }

  lemma TetSplit03Orient5(t01: real, t02: real, t13: real, t23: real)
    ensures Orient3(Vec3(t01, 0.0, 0.0), Vec3(0.0, t02, 0.0), Vec3(1.0 - t13, 0.0, t13), E1) == -((1.0 - t01) * t02 * t13)
  {
    assert Orient3(Vec3(t01, 0.0, 0.0), Vec3(0.0, t02, 0.0), Vec3(1.0 - t13, 0.0, t13), E1) == -t02 * t13 + t01 * t02 * t13 by {
      assert Sub(E1, Vec3(t01, 0.0, 0.0)) == Vec3(1.0 - t01, 0.0, 0.0);
      assert Sub(Vec3(1.0 - t13, 0.0, t13), Vec3(t01, 0.0, 0.0)) == Vec3(1.0 - t01 - t13, 0.0, t13);
      assert Sub(Vec3(0.0, t02, 0.0), Vec3(t01, 0.0, 0.0)) == Vec3(-t01, t02, 0.0);
      assert Orient3(Vec3(t01, 0.0, 0.0), Vec3(0.0, t02, 0.0), Vec3(1.0 - t13, 0.0, t13), E1) == (1.0 - t01) * -(t13 * t02);
    }
  }

  lemma TetSplit03Piece5(t01: real, t02: real, t13: real, t23: real, p: real, o: real)
    requires 0.0 < t01 < 1.0 && 0.0 < t02 < 1.0 && 0.0 < t13 < 1.0 && 0.0 < t23 < 1.0 && p == (1.0 - t01) * t02 * t13 && o == -p
    ensures p > 0.0 && Abs(o) == p
  {
    PositiveThreeFactors((1.0 - t01), t02, t13, p);
  }

  lemma {:induction false} TetSplit03Identity(t01: real, t02: real, t13: real, t23: real)
    ensures (1.0 - t02) * (1.0 - t13) * (1.0 - t23) + t02 * (1.0 - t13) + t01 * t02 * t13 + (1.0 - t02) * (1.0 - t13) * t23 + (1.0 - t02) * t13 + (1.0 - t01) * t02 * t13 == 1.0
  {
  }

  lemma {:induction false} TetSplit03At0(t01: real, t02: real, t13: real, t23: real, o: real)
    requires 0.0 < t01 < 1.0 && 0.0 < t02 < 1.0 && 0.0 < t13 < 1.0 && 0.0 < t23 < 1.0 && o == Abs(Orient3(E3, Vec3(0.0, t02, 0.0), Vec3(1.0 - t13, 0.0, t13), Vec3(0.0, 1.0 - t23, t23)))
    ensures o == (1.0 - t02) * (1.0 - t13) * (1.0 - t23)
  {
    TetSplit03Orient0(t01, t02, t13, t23);
    TetSplit03Piece0(t01, t02, t13, t23, (1.0 - t02) * (1.0 - t13) * (1.0 - t23), Orient3(E3, Vec3(0.0, t02, 0.0), Vec3(1.0 - t13, 0.0, t13), Vec3(0.0, 1.0 - t23, t23)));
  }

  lemma {:induction false} TetSplit03At1(t01: real, t02: real, t13: real, t23: real, o: real)
    requires 0.0 < t01 < 1.0 && 0.0 < t02 < 1.0 && 0.0 < t13 < 1.0 && 0.0 < t23 < 1.0 && o == Abs(Orient3(Zero, E3, Vec3(0.0, t02, 0.0), Vec3(1.0 - t13, 0.0, t13)))
    ensures o == t02 * (1.0 - t13)
  {
    TetSplit03Orient1(t01, t02, t13, t23);
    TetSplit03Piece1(t01, t02, t13, t23, t02 * (1.0 - t13), Orient3(Zero, E3, Vec3(0.0, t02, 0.0), Vec3(1.0 - t13, 0.0, t13)));
  }

  lemma {:induction false} TetSplit03At2(t01: real, t02: real, t13: real, t23: real, o: real)
    requires 0.0 < t01 < 1.0 && 0.0 < t02 < 1.0 && 0.0 < t13 < 1.0 && 0.0 < t23 < 1.0 && o == Abs(Orient3(Vec3(t01, 0.0, 0.0), Vec3(0.0, t02, 0.0), Vec3(1.0 - t13, 0.0, t13), Zero))
    ensures o == t01 * t02 * t13
  {
    TetSplit03Orient2(t01, t02, t13, t23);
    TetSplit03Piece2(t01, t02, t13, t23, t01 * t02 * t13, Orient3(Vec3(t01, 0.0, 0.0), Vec3(0.0, t02, 0.0), Vec3(1.0 - t13, 0.0, t13), Zero));
  }

  lemma {:induction false} TetSplit03At3(t01: real, t02: real, t13: real, t23: real, o: real)
    requires 0.0 < t01 < 1.0 && 0.0 < t02 < 1.0 && 0.0 < t13 < 1.0 && 0.0 < t23 < 1.0 && o == Abs(Orient3(E2, Vec3(0.0, t02, 0.0), Vec3(1.0 - t13, 0.0, t13), Vec3(0.0, 1.0 - t23, t23)))
    ensures o == (1.0 - t02) * (1.0 - t13) * t23
  {
    TetSplit03Orient3(t01, t02, t13, t23);
    TetSplit03Piece3(t01, t02, t13, t23, (1.0 - t02) * (1.0 - t13) * t23, Orient3(E2, Vec3(0.0, t02, 0.0), Vec3(1.0 - t13, 0.0, t13), Vec3(0.0, 1.0 - t23, t23)));
  }

  lemma {:induction false} TetSplit03At4(t01: real, t02: real, t13: real, t23: real, o: real)
    requires 0.0 < t01 < 1.0 && 0.0 < t02 < 1.0 && 0.0 < t13 < 1.0 && 0.0 < t23 < 1.0 && o == Abs(Orient3(E1, E2, Vec3(0.0, t02, 0.0), Vec3(1.0 - t13, 0.0, t13)))
    ensures o == (1.0 - t02) * t13
  {
    TetSplit03Orient4(t01, t02, t13, t23);
    TetSplit03Piece4(t01, t02, t13, t23, (1.0 - t02) * t13, Orient3(E1, E2, Vec3(0.0, t02, 0.0), Vec3(1.0 - t13, 0.0, t13)));
  }

  lemma {:induction false} TetSplit03At5(t01: real, t02: real, t13: real, t23: real, o: real)
    requires 0.0 < t01 < 1.0 && 0.0 < t02 < 1.0 && 0.0 < t13 < 1.0 && 0.0 < t23 < 1.0 && o == Abs(Orient3(Vec3(t01, 0.0, 0.0), Vec3(0.0, t02, 0.0), Vec3(1.0 - t13, 0.0, t13), E1))
    ensures o == (1.0 - t01) * t02 * t13
  {
    TetSplit03Orient5(t01, t02, t13, t23);
    TetSplit03Piece5(t01, t02, t13, t23, (1.0 - t01) * t02 * t13, Orient3(Vec3(t01, 0.0, 0.0), Vec3(0.0, t02, 0.0), Vec3(1.0 - t13, 0.0, t13), E1));
  }

  lemma {:induction false} TetSplit03InsideSum(X: seq<Vec3>, store: VertexStore,
    x0: Vec3, x1: Vec3, x2: Vec3, x3: Vec3, x4: Vec3, x5: Vec3, x6: Vec3, x7: Vec3,
    v0: real, v1: real, v2: real)
    requires |X| == 8 && X[0] == x0 && X[1] == x1 && X[2] == x2 && X[3] == x3 && X[4] == x4 && X[5] == x5 && X[6] == x6 && X[7] == x7
    requires v0 == Abs(Orient3(x3, x5, x6, x7))
    requires v1 == Abs(Orient3(x0, x3, x5, x6))
    requires v2 == Abs(Orient3(x4, x5, x6, x0))
    ensures AllSimplexBelow([Polytope([3, 5, 6, 7], 2, store), Polytope([0, 3, 5, 6], 3, store), Polytope([4, 5, 6, 0], 2, store)], 3, 8)
    ensures Sum(Orientations(X, [Polytope([3, 5, 6, 7], 2, store), Polytope([0, 3, 5, 6], 3, store), Polytope([4, 5, 6, 0], 2, store)], 3)) == v0 + v1 + v2
  {
    var pieces := [Polytope([3, 5, 6, 7], 2, store), Polytope([0, 3, 5, 6], 3, store), Polytope([4, 5, 6, 0], 2, store)];
    assert AllSimplexBelow(pieces, 3, |X|);
    var os := Orientations(X, pieces, 3);
    assert pieces[0].ia == [3, 5, 6, 7];
    TetOrientationAt(X, pieces, 0, 3, 5, 6, 7, os[0]);
    assert pieces[1].ia == [0, 3, 5, 6];
    TetOrientationAt(X, pieces, 1, 0, 3, 5, 6, os[1]);
    assert pieces[2].ia == [4, 5, 6, 0];
    TetOrientationAt(X, pieces, 2, 4, 5, 6, 0, os[2]);
    SumOfThree(os);
  }

  lemma {:induction false} TetSplit03OutsideSum(X: seq<Vec3>, store: VertexStore,
    x0: Vec3, x1: Vec3, x2: Vec3, x3: Vec3, x4: Vec3, x5: Vec3, x6: Vec3, x7: Vec3,
    v3: real, v4: real, v5: real)
    requires |X| == 8 && X[0] == x0 && X[1] == x1 && X[2] == x2 && X[3] == x3 && X[4] == x4 && X[5] == x5 && X[6] == x6 && X[7] == x7
    requires v3 == Abs(Orient3(x2, x5, x6, x7))
    requires v4 == Abs(Orient3(x1, x2, x5, x6))
    requires v5 == Abs(Orient3(x4, x5, x6, x1))
    ensures AllSimplexBelow([Polytope([2, 5, 6, 7], 2, store), Polytope([1, 2, 5, 6], 3, store), Polytope([4, 5, 6, 1], 2, store)], 3, 8)
    ensures Sum(Orientations(X, [Polytope([2, 5, 6, 7], 2, store), Polytope([1, 2, 5, 6], 3, store), Polytope([4, 5, 6, 1], 2, store)], 3)) == v3 + v4 + v5
  {
    var pieces := [Polytope([2, 5, 6, 7], 2, store), Polytope([1, 2, 5, 6], 3, store), Polytope([4, 5, 6, 1], 2, store)];
    assert AllSimplexBelow(pieces, 3, |X|);
    var os := Orientations(X, pieces, 3);
    assert pieces[0].ia == [2, 5, 6, 7];
    TetOrientationAt(X, pieces, 0, 2, 5, 6, 7, os[0]);
    assert pieces[1].ia == [1, 2, 5, 6];
    TetOrientationAt(X, pieces, 1, 1, 2, 5, 6, os[1]);
    assert pieces[2].ia == [4, 5, 6, 1];
    TetOrientationAt(X, pieces, 2, 4, 5, 6, 1, os[2]);
    SumOfThree(os);
  }

  lemma {:induction false} TetSplit03Total(t01: real, t02: real, t13: real, t23: real, v0: real, v1: real, v2: real, v3: real, v4: real, v5: real)
    requires 0.0 < t01 < 1.0 && 0.0 < t02 < 1.0 && 0.0 < t13 < 1.0 && 0.0 < t23 < 1.0
    requires v0 == Abs(Orient3(E3, Vec3(0.0, t02, 0.0), Vec3(1.0 - t13, 0.0, t13), Vec3(0.0, 1.0 - t23, t23)))
    requires v1 == Abs(Orient3(Zero, E3, Vec3(0.0, t02, 0.0), Vec3(1.0 - t13, 0.0, t13)))
    requires v2 == Abs(Orient3(Vec3(t01, 0.0, 0.0), Vec3(0.0, t02, 0.0), Vec3(1.0 - t13, 0.0, t13), Zero))
    requires v3 == Abs(Orient3(E2, Vec3(0.0, t02, 0.0), Vec3(1.0 - t13, 0.0, t13), Vec3(0.0, 1.0 - t23, t23)))
    requires v4 == Abs(Orient3(E1, E2, Vec3(0.0, t02, 0.0), Vec3(1.0 - t13, 0.0, t13)))
    requires v5 == Abs(Orient3(Vec3(t01, 0.0, 0.0), Vec3(0.0, t02, 0.0), Vec3(1.0 - t13, 0.0, t13), E1))
    ensures v0 + v1 + v2 + v3 + v4 + v5 == 1.0
  {
    TetSplit03At0(t01, t02, t13, t23, v0);
    TetSplit03At1(t01, t02, t13, t23, v1);
    TetSplit03At2(t01, t02, t13, t23, v2);
    TetSplit03At3(t01, t02, t13, t23, v3);
    TetSplit03At4(t01, t02, t13, t23, v4);
    TetSplit03At5(t01, t02, t13, t23, v5);
    TetSplit03Identity(t01, t02, t13, t23);
  }

  lemma {:induction false} TetSplit03Orientations(x0: Vec3, x1: Vec3, x2: Vec3, x3: Vec3, x4: Vec3, x5: Vec3, x6: Vec3, x7: Vec3, t01: real, t02: real, t13: real, t23: real)
    requires 0.0 < t01 < 1.0 && 0.0 < t02 < 1.0 && 0.0 < t13 < 1.0 && 0.0 < t23 < 1.0
    requires x0 == Zero && x1 == E1 && x2 == E2 && x3 == E3 && x4 == Vec3(t01, 0.0, 0.0) && x5 == Vec3(0.0, t02, 0.0) && x6 == Vec3(1.0 - t13, 0.0, t13) && x7 == Vec3(0.0, 1.0 - t23, t23)
    ensures Abs(Orient3(x3, x5, x6, x7)) + Abs(Orient3(x0, x3, x5, x6)) + Abs(Orient3(x4, x5, x6, x0)) + Abs(Orient3(x2, x5, x6, x7)) + Abs(Orient3(x1, x2, x5, x6)) + Abs(Orient3(x4, x5, x6, x1)) == 1.0
  {
    TetSplit03Total(t01, t02, t13, t23, Abs(Orient3(x3, x5, x6, x7)), Abs(Orient3(x0, x3, x5, x6)), Abs(Orient3(x4, x5, x6, x0)), Abs(Orient3(x2, x5, x6, x7)), Abs(Orient3(x1, x2, x5, x6)), Abs(Orient3(x4, x5, x6, x1)));
  }

  lemma {:induction false} TetSplit03Lerp0(t01: real)
    ensures Add(Zero, Scale(t01, Sub(E1, Zero))) == Vec3(t01, 0.0, 0.0)
  {
  }

  lemma {:induction false} TetSplit03Lerp1(t02: real)
    ensures Add(Zero, Scale(t02, Sub(E2, Zero))) == Vec3(0.0, t02, 0.0)
  {
  }

  lemma {:induction false} TetSplit03Lerp2(t13: real)
    ensures Add(E1, Scale(t13, Sub(E3, E1))) == Vec3(1.0 - t13, 0.0, t13)
  {
  }

  lemma {:induction false} TetSplit03Lerp3(t23: real)
    ensures Add(E2, Scale(t23, Sub(E3, E2))) == Vec3(0.0, 1.0 - t23, t23)
  {
  }

  lemma {:induction false} TetSplit03Point0(f: seq<real>, V: seq<Vertex>, X: seq<Vec3>)
    requires |f| == 4 && |V| == 4 && V[0].lset == f[0] && V[1].lset == f[1]
    requires CuttablePairs(V, Range(0, 4), [(0, 1), (0, 2), (1, 3), (2, 3)])
    requires X == BaseCoordinates(4) + CutCoordinates(V, BaseCoordinates(4), Range(0, 4), [(0, 1), (0, 2), (1, 3), (2, 3)])
    ensures f[0] != f[1] && X[4] == CutPoint(Zero, E1, f[0], f[1])
  {
    CutCoordinatesIndex(V, BaseCoordinates(4), Range(0, 4), [(0, 1), (0, 2), (1, 3), (2, 3)], X, 0);
    assert Range(0, 4)[0] == 0 && Range(0, 4)[1] == 1;
  }

  lemma {:induction false} TetSplit03Value0(a: real, b: real, x: Vec3)
    requires a != b && x == CutPoint(Zero, E1, a, b)
    ensures x == Vec3(a / (a - b), 0.0, 0.0)
  {
    TetSplit03Lerp0(a / (a - b));
  }

  lemma {:induction false} TetSplit03Point1(f: seq<real>, V: seq<Vertex>, X: seq<Vec3>)
    requires |f| == 4 && |V| == 4 && V[0].lset == f[0] && V[2].lset == f[2]
    requires CuttablePairs(V, Range(0, 4), [(0, 1), (0, 2), (1, 3), (2, 3)])
    requires X == BaseCoordinates(4) + CutCoordinates(V, BaseCoordinates(4), Range(0, 4), [(0, 1), (0, 2), (1, 3), (2, 3)])
    ensures f[0] != f[2] && X[5] == CutPoint(Zero, E2, f[0], f[2])
  {
    CutCoordinatesIndex(V, BaseCoordinates(4), Range(0, 4), [(0, 1), (0, 2), (1, 3), (2, 3)], X, 1);
    assert Range(0, 4)[0] == 0 && Range(0, 4)[2] == 2;
  }

  lemma {:induction false} TetSplit03Value1(a: real, b: real, x: Vec3)
    requires a != b && x == CutPoint(Zero, E2, a, b)
    ensures x == Vec3(0.0, a / (a - b), 0.0)
  {
    TetSplit03Lerp1(a / (a - b));
  }

  lemma {:induction false} TetSplit03Point2(f: seq<real>, V: seq<Vertex>, X: seq<Vec3>)
    requires |f| == 4 && |V| == 4 && V[1].lset == f[1] && V[3].lset == f[3]
    requires CuttablePairs(V, Range(0, 4), [(0, 1), (0, 2), (1, 3), (2, 3)])
    requires X == BaseCoordinates(4) + CutCoordinates(V, BaseCoordinates(4), Range(0, 4), [(0, 1), (0, 2), (1, 3), (2, 3)])
    ensures f[1] != f[3] && X[6] == CutPoint(E1, E3, f[1], f[3])
  {
    CutCoordinatesIndex(V, BaseCoordinates(4), Range(0, 4), [(0, 1), (0, 2), (1, 3), (2, 3)], X, 2);
    assert Range(0, 4)[1] == 1 && Range(0, 4)[3] == 3;
  }

  lemma {:induction false} TetSplit03Value2(a: real, b: real, x: Vec3)
    requires a != b && x == CutPoint(E1, E3, a, b)
    ensures x == Vec3(1.0 - a / (a - b), 0.0, a / (a - b))
  {
    TetSplit03Lerp2(a / (a - b));
  }

  lemma {:induction false} TetSplit03Point3(f: seq<real>, V: seq<Vertex>, X: seq<Vec3>)
    requires |f| == 4 && |V| == 4 && V[2].lset == f[2] && V[3].lset == f[3]
    requires CuttablePairs(V, Range(0, 4), [(0, 1), (0, 2), (1, 3), (2, 3)])
    requires X == BaseCoordinates(4) + CutCoordinates(V, BaseCoordinates(4), Range(0, 4), [(0, 1), (0, 2), (1, 3), (2, 3)])
    ensures f[2] != f[3] && X[7] == CutPoint(E2, E3, f[2], f[3])
  {
    CutCoordinatesIndex(V, BaseCoordinates(4), Range(0, 4), [(0, 1), (0, 2), (1, 3), (2, 3)], X, 3);
    assert Range(0, 4)[2] == 2 && Range(0, 4)[3] == 3;
  }

  lemma {:induction false} TetSplit03Value3(a: real, b: real, x: Vec3)
    requires a != b && x == CutPoint(E2, E3, a, b)
    ensures x == Vec3(0.0, 1.0 - a / (a - b), a / (a - b))
  {
    TetSplit03Lerp3(a / (a - b));
  }

  lemma {:induction false} TetSplit03Coordinates(f: seq<real>, V: seq<Vertex>, dt: DomainType, X: seq<Vec3>)
    returns (t01: real, t02: real, t13: real, t23: real, x0: Vec3, x1: Vec3, x2: Vec3, x3: Vec3, x4: Vec3, x5: Vec3, x6: Vec3, x7: Vec3)
    requires |f| == 4 && |V| == 4 && forall i :: 0 <= i < 4 ==> V[i].lset == f[i]
    requires dt != IF && IsRelevant(dt, f[0]) && IsRelevant(dt, f[3]) && IsRelevant(Opposite(dt), f[1]) && IsRelevant(Opposite(dt), f[2])
    requires CuttablePairs(V, Range(0, 4), [(0, 1), (0, 2), (1, 3), (2, 3)])
    requires X == BaseCoordinates(4) + CutCoordinates(V, BaseCoordinates(4), Range(0, 4), [(0, 1), (0, 2), (1, 3), (2, 3)])
    ensures |X| == 8 && X[0] == x0 && X[1] == x1 && X[2] == x2 && X[3] == x3 && X[4] == x4 && X[5] == x5 && X[6] == x6 && X[7] == x7
    ensures 0.0 < t01 < 1.0 && 0.0 < t02 < 1.0 && 0.0 < t13 < 1.0 && 0.0 < t23 < 1.0
    ensures x0 == Zero && x1 == E1 && x2 == E2 && x3 == E3 && x4 == Vec3(t01, 0.0, 0.0) && x5 == Vec3(0.0, t02, 0.0) && x6 == Vec3(1.0 - t13, 0.0, t13) && x7 == Vec3(0.0, 1.0 - t23, t23)
  {
    TetSplit03Point0(f, V, X);
    TetSplit03Value0(f[0], f[1], X[4]);
    CutParameterBounds(f[0], f[1]);
    TetSplit03Point1(f, V, X);
    TetSplit03Value1(f[0], f[2], X[5]);
    CutParameterBounds(f[0], f[2]);
    TetSplit03Point2(f, V, X);
    TetSplit03Value2(f[1], f[3], X[6]);
    CutParameterBounds(f[1], f[3]);
    TetSplit03Point3(f, V, X);
    TetSplit03Value3(f[2], f[3], X[7]);
    CutParameterBounds(f[2], f[3]);
    t01 := f[0] / (f[0] - f[1]);
    t02 := f[0] / (f[0] - f[2]);
    t13 := f[1] / (f[1] - f[3]);
    t23 := f[2] / (f[2] - f[3]);
    x0, x1, x2, x3, x4, x5, x6, x7 := Zero, E1, E2, E3, Vec3(t01, 0.0, 0.0), Vec3(0.0, t02, 0.0), Vec3(1.0 - t13, 0.0, t13), Vec3(0.0, 1.0 - t23, t23);
  }

  /** The measures of both domains' pieces add up to one when vertices 0 and 3 alone lie in domain dt. */
  lemma {:induction false} TetSplit03Measure(f: seq<real>, V: seq<Vertex>, store: VertexStore, dt: DomainType, X: seq<Vec3>)
    requires |f| == 4 && |V| == 4 && forall i :: 0 <= i < 4 ==> V[i].lset == f[i]
    requires dt != IF && TestsAgree(f)
    requires IsRelevant(dt, f[0]) && IsRelevant(dt, f[3]) && IsRelevant(Opposite(dt), f[1]) && IsRelevant(Opposite(dt), f[2])
    requires CuttablePairs(V, Range(0, 4), CutPairs(f))
    requires X == BaseCoordinates(4) + CutCoordinates(V, BaseCoordinates(4), Range(0, 4), CutPairs(f))
    ensures |X| == 8
    ensures AllSimplexBelow([Polytope([3, 5, 6, 7], 2, store), Polytope([0, 3, 5, 6], 3, store), Polytope([4, 5, 6, 0], 2, store)], 3, 8) && AllSimplexBelow([Polytope([2, 5, 6, 7], 2, store), Polytope([1, 2, 5, 6], 3, store), Polytope([4, 5, 6, 1], 2, store)], 3, 8)
    ensures Sum(Orientations(X, [Polytope([3, 5, 6, 7], 2, store), Polytope([0, 3, 5, 6], 3, store), Polytope([4, 5, 6, 0], 2, store)], 3)) + Sum(Orientations(X, [Polytope([2, 5, 6, 7], 2, store), Polytope([1, 2, 5, 6], 3, store), Polytope([4, 5, 6, 1], 2, store)], 3)) == 1.0
  {
    TetSplit03Cut(f, dt);
    var t01, t02, t13, t23, x0, x1, x2, x3, x4, x5, x6, x7 := TetSplit03Coordinates(f, V, dt, X);
    TetSplit03Orientations(x0, x1, x2, x3, x4, x5, x6, x7, t01, t02, t13, t23);
    TetSplit03InsideSum(X, store, x0, x1, x2, x3, x4, x5, x6, x7,
      Abs(Orient3(x3, x5, x6, x7)),
      Abs(Orient3(x0, x3, x5, x6)),
      Abs(Orient3(x4, x5, x6, x0)));
    TetSplit03OutsideSum(X, store, x0, x1, x2, x3, x4, x5, x6, x7,
      Abs(Orient3(x2, x5, x6, x7)),
      Abs(Orient3(x1, x2, x5, x6)),
      Abs(Orient3(x4, x5, x6, x1)));
  }

  /**
   * When vertices 0 and 3 alone lie in domain dt, the table's pieces of both
   * domains have absolute orientations that add up to one.
   */
  lemma {:induction false} TetSplit03(f: seq<real>, V: seq<Vertex>, store: VertexStore, dt: DomainType, X: seq<Vec3>)
    requires |f| == 4 && |V| == 4 && forall i :: 0 <= i < 4 ==> V[i].lset == f[i]
    requires dt != IF && TestsAgree(f)
    requires IsRelevant(dt, f[0]) && IsRelevant(dt, f[3]) && IsRelevant(Opposite(dt), f[1]) && IsRelevant(Opposite(dt), f[2])
    requires CuttablePairs(V, Range(0, 4), CutPairs(f))
    requires X == BaseCoordinates(4) + CutCoordinates(V, BaseCoordinates(4), Range(0, 4), CutPairs(f))
    ensures CutPairs(f) == [(0, 1), (0, 2), (1, 3), (2, 3)] && |X| == 8
    ensures Decompose(dt, 3, f, Polytope(Range(4, 4), 2, store)) == Ok([Polytope([3, 5, 6, 7], 2, store), Polytope([0, 3, 5, 6], 3, store), Polytope([4, 5, 6, 0], 2, store)])
    ensures Decompose(Opposite(dt), 3, f, Polytope(Range(4, 4), 2, store)) == Ok([Polytope([2, 5, 6, 7], 2, store), Polytope([1, 2, 5, 6], 3, store), Polytope([4, 5, 6, 1], 2, store)])
    ensures AllSimplexBelow([Polytope([3, 5, 6, 7], 2, store), Polytope([0, 3, 5, 6], 3, store), Polytope([4, 5, 6, 0], 2, store)], 3, 8) && AllSimplexBelow([Polytope([2, 5, 6, 7], 2, store), Polytope([1, 2, 5, 6], 3, store), Polytope([4, 5, 6, 1], 2, store)], 3, 8)
    ensures Sum(Orientations(X, [Polytope([3, 5, 6, 7], 2, store), Polytope([0, 3, 5, 6], 3, store), Polytope([4, 5, 6, 0], 2, store)], 3)) + Sum(Orientations(X, [Polytope([2, 5, 6, 7], 2, store), Polytope([1, 2, 5, 6], 3, store), Polytope([4, 5, 6, 1], 2, store)], 3)) == 1.0
  {
    TetSplit03Pieces(f, store, dt);
    TetSplit03Measure(f, V, store, dt, X);
  }

  /** The same, stated for the positive and the negative domain. */
  lemma {:induction false} TetSplit03Tiles(f: seq<real>, V: seq<Vertex>, store: VertexStore, dt: DomainType, X: seq<Vec3>)
    requires |f| == 4 && |V| == 4 && forall i :: 0 <= i < 4 ==> V[i].lset == f[i]
    requires dt != IF && TestsAgree(f)
    requires IsRelevant(dt, f[0]) && IsRelevant(dt, f[3]) && IsRelevant(Opposite(dt), f[1]) && IsRelevant(Opposite(dt), f[2])
    requires CuttablePairs(V, Range(0, 4), CutPairs(f))
    requires X == BaseCoordinates(4) + CutCoordinates(V, BaseCoordinates(4), Range(0, 4), CutPairs(f))
    ensures PiecesTile(f, 3, Polytope(Range(4, |CutPairs(f)|), 2, store), X)
  {
    TetSplit03Pieces(f, store, dt);
    TetSplit03Measure(f, V, store, dt, X);
    ListsTile(f, 3, Polytope(Range(4, 4), 2, store), X, dt, [Polytope([3, 5, 6, 7], 2, store), Polytope([0, 3, 5, 6], 3, store), Polytope([4, 5, 6, 0], 2, store)], [Polytope([2, 5, 6, 7], 2, store), Polytope([1, 2, 5, 6], 3, store), Polytope([4, 5, 6, 1], 2, store)]);
  }

  /** The sign classes of a cut triangle, each tiled by its table entries. */
  lemma {:induction false} TriangleTiles(f: seq<real>, V: seq<Vertex>, store: VertexStore, X: seq<Vec3>)
    requires |f| == 3 && |V| == 3 && forall i :: 0 <= i < 3 ==> V[i].lset == f[i]
    requires ClearlySigned(f) && TestsAgree(f) && HasPos(f) && HasNeg(f)
    requires CuttablePairs(V, Range(0, 3), CutPairs(f))
    requires X == BaseCoordinates(3) + CutCoordinates(V, BaseCoordinates(3), Range(0, 3), CutPairs(f))
    ensures PiecesTile(f, 2, Polytope(Range(3, |CutPairs(f)|), 1, store), X)
  {
    var d := if f[0] > Tol then POS else NEG;
    assert IsRelevant(d, f[0]);
    assert forall i :: 0 <= i < 3 && !IsRelevant(d, f[i]) ==> IsRelevant(Opposite(d), f[i]);
    if IsRelevant(d, f[1]) {
      SomeOpposite(f, d);
      var i :| 0 <= i < 3 && IsRelevant(Opposite(d), f[i]);
      assert i != 0 && i != 1;
      TriangleApex2Tiles(f, V, store, Opposite(d), X);
    } else if IsRelevant(d, f[2]) {
      TriangleApex1Tiles(f, V, store, Opposite(d), X);
    } else {
      TriangleApex0Tiles(f, V, store, d, X);
    }
  }

  /** The sign classes of a cut tetrahedron, each tiled by its table entries. */
  lemma {:induction false} TetTiles(f: seq<real>, V: seq<Vertex>, store: VertexStore, X: seq<Vec3>)
    requires |f| == 4 && |V| == 4 && forall i :: 0 <= i < 4 ==> V[i].lset == f[i]
    requires ClearlySigned(f) && TestsAgree(f) && HasPos(f) && HasNeg(f)
    requires CuttablePairs(V, Range(0, 4), CutPairs(f))
    requires X == BaseCoordinates(4) + CutCoordinates(V, BaseCoordinates(4), Range(0, 4), CutPairs(f))
    ensures PiecesTile(f, 3, Polytope(Range(4, |CutPairs(f)|), 2, store), X)
  {
    var d := if f[0] > Tol then POS else NEG;
    assert IsRelevant(d, f[0]);
    assert forall i :: 0 <= i < 4 && !IsRelevant(d, f[i]) ==> IsRelevant(Opposite(d), f[i]);
    if IsRelevant(d, f[1]) {
      if IsRelevant(d, f[2]) {
        SomeOpposite(f, d);
        var i :| 0 <= i < 4 && IsRelevant(Opposite(d), f[i]);
        assert i != 0 && i != 1 && i != 2;
        TetApex3Tiles(f, V, store, Opposite(d), X);
      } else if IsRelevant(d, f[3]) {
        TetApex2Tiles(f, V, store, Opposite(d), X);
      } else {
        TetSplit01Tiles(f, V, store, d, X);
      }
    } else if IsRelevant(d, f[2]) {
      if IsRelevant(d, f[3]) {
        TetApex1Tiles(f, V, store, Opposite(d), X);
      } else {
        TetSplit02Tiles(f, V, store, d, X);
      }
    } else if IsRelevant(d, f[3]) {
      TetSplit03Tiles(f, V, store, d, X);
    } else {
      TetApex0Tiles(f, V, store, d, X);
    }
  }

  /**
   * For clearly signed vertex values of both signs on which the product test
   * agrees with the sign test, the table's pieces of the positive and of the
   * negative domain tile the reference simplex: measured against it, their
   * absolute orientations add up to one.
   */
  lemma {:induction false} ReferencePiecesTile(f: seq<real>, V: seq<Vertex>, store: VertexStore, X: seq<Vec3>)
    requires (|f| == 3 || |f| == 4) && |V| == |f| && forall i :: 0 <= i < |f| ==> V[i].lset == f[i]
    requires ClearlySigned(f) && TestsAgree(f) && HasPos(f) && HasNeg(f)
    requires CuttablePairs(V, Range(0, |f|), CutPairs(f))
    requires X == BaseCoordinates(|f|) + CutCoordinates(V, BaseCoordinates(|f|), Range(0, |f|), CutPairs(f))
    ensures PiecesTile(f, |f| - 1, Polytope(Range(|f|, |CutPairs(f)|), |f| - 2, store), X)
  {
    if |f| == 3 {
      TriangleTiles(f, V, store, X);
    } else {
      TetTiles(f, V, store, X);
    }
  }

  /**
   * The pieces the tables give the two domains of a clearly signed, cut
   * triangle or tetrahedron P tile P: their measures add up to P's own.
   */
  lemma {:induction false} TablePiecesTile(norm: Vec3 -> real, P: seq<Vec3>, f: seq<real>, V: seq<Vertex>, W: seq<Vertex>,
                                           store: VertexStore, X: seq<Vec3>)
    requires IsEuclideanNorm(norm) && (|f| == 3 || |f| == 4) && |P| == |f|
    requires |V| == |f| && forall i :: 0 <= i < |f| ==> V[i].lset == f[i]
    requires ClearlySigned(f) && TestsAgree(f) && HasPos(f) && HasNeg(f)
    requires CuttablePairs(V, Range(0, |f|), CutPairs(f))
    requires X == BaseCoordinates(|f|) + CutCoordinates(V, BaseCoordinates(|f|), Range(0, |f|), CutPairs(f))
    requires ImagesOf(P, W, X)
    ensures var sCut := Polytope(Range(|f|, |CutPairs(f)|), |f| - 2, store);
            Decompose(POS, |f| - 1, f, sCut).Ok? && Decompose(NEG, |f| - 1, f, sCut).Ok?
            && Measurable(W, Decompose(POS, |f| - 1, f, sCut).value)
            && Measurable(W, Decompose(NEG, |f| - 1, f, sCut).value)
            && MeasureSimplVol(norm, P).Ok?
            && Sum(PieceMeasures(norm, W, Decompose(POS, |f| - 1, f, sCut).value))
               + Sum(PieceMeasures(norm, W, Decompose(NEG, |f| - 1, f, sCut).value))
               == MeasureSimplVol(norm, P).value
  {
    var sCut := Polytope(Range(|f|, |CutPairs(f)|), |f| - 2, store);
    ReferencePiecesTile(f, V, store, X);
    DomainsTile(norm, P, W, X, Decompose(POS, |f| - 1, f, sCut).value, Decompose(NEG, |f| - 1, f, sCut).value, |f| - 1);
  }
}
