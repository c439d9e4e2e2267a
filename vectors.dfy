/**
 * Three-component real vectors (the `Vec<3>` of the straight-cut engine),
 * the cross product and determinant it uses, and the Euclidean norm.
 *
 * The norm involves a square root, which Dafny's `real` cannot compute; it is
 * therefore a collaborator function `norm` characterised by `IsEuclideanNorm`.
 */
module Vectors {

  datatype Vec3 = Vec3(x: real, y: real, z: real)

  const Zero: Vec3 := Vec3(0.0, 0.0, 0.0)

  function Add(a: Vec3, b: Vec3): Vec3 {
    Vec3(a.x + b.x, a.y + b.y, a.z + b.z)
  }

  function Sub(a: Vec3, b: Vec3): Vec3 {
    Vec3(a.x - b.x, a.y - b.y, a.z - b.z)
  }

  function Scale(s: real, a: Vec3): Vec3 {
    Vec3(s * a.x, s * a.y, s * a.z)
  }

  function Dot(a: Vec3, b: Vec3): real {
    a.x * b.x + a.y * b.y + a.z * b.z
  }

  function Cross(a: Vec3, b: Vec3): Vec3 {
    Vec3(a.y * b.z - a.z * b.y, a.z * b.x - a.x * b.z, a.x * b.y - a.y * b.x)
  }

  /** Determinant of the 3x3 matrix with columns a, b, c. */
  function Det3(a: Vec3, b: Vec3, c: Vec3): real {
    Dot(a, Cross(b, c))
  }

  /** Component m (0, 1 or 2) of a vector, as `v[m]` / `v(m)` reads it. */
  function Component(v: Vec3, m: nat): real
    requires m < 3
  {
    if m == 0 then v.x else if m == 1 then v.y else v.z
  }

  /** v with component m replaced by c. */
  function WithComponent(v: Vec3, m: nat, c: real): (w: Vec3)
    requires m < 3
    ensures Component(w, m) == c
    ensures forall k :: 0 <= k < 3 && k != m ==> Component(w, k) == Component(v, k)
  {
    if m == 0 then Vec3(c, v.y, v.z) else if m == 1 then Vec3(v.x, c, v.z) else Vec3(v.x, v.y, c)
  }

  /** The unit vector along coordinate axis m. */
  function Axis(m: nat): Vec3
    requires m < 3
  {
    WithComponent(Zero, m, 1.0)
  }

  function Abs(r: real): (a: real)
    ensures a >= 0.0 && (a == r || a == -r)
  {
    if r < 0.0 then -r else r
  }

  /** At v, `norm` is non-negative and squares to the dot product. */
  ghost predicate NormAt(norm: Vec3 -> real, v: Vec3) {
    norm(v) >= 0.0 && norm(v) * norm(v) == Dot(v, v)
  }

  /** `norm` is the Euclidean length. */
  ghost predicate IsEuclideanNorm(norm: Vec3 -> real) {
    forall v: Vec3 :: NormAt(norm, v)
  }

  /** Two non-negative reals with equal squares are equal. */
  lemma SquareRootUnique(r: real, s: real)
    requires r >= 0.0 && s >= 0.0 && r * r == s * s
    ensures r == s
  {
    assert (r - s) * (r + s) == r * r - s * s == 0.0;
    assert r - s == 0.0 || r + s == 0.0;
  }

  /** Only zero squares to zero. */
  lemma SquareZero(a: real)
    requires a * a == 0.0
    ensures a == 0.0
  {
    assert Abs(a) * Abs(a) == a * a;
    SquareRootUnique(Abs(a), 0.0);
  }

  lemma NormFacts(norm: Vec3 -> real, v: Vec3)
    requires IsEuclideanNorm(norm)
    ensures norm(v) >= 0.0 && norm(v) * norm(v) == Dot(v, v)
  {
    assert NormAt(norm, v);
  }

  /** The norm is absolutely homogeneous: norm(s a) = |s| norm(a). */
  lemma NormScale(norm: Vec3 -> real, s: real, a: Vec3)
    requires IsEuclideanNorm(norm)
    ensures norm(Scale(s, a)) == Abs(s) * norm(a)
  {
    var n, m := norm(Scale(s, a)), norm(a);
    NormFacts(norm, Scale(s, a));
    NormFacts(norm, a);
    var ss := s * s;
    assert Dot(Scale(s, a), Scale(s, a)) == ss * Dot(a, a);
    var k := Abs(s) * m;
    assert Abs(s) * Abs(s) == ss;
    assert k * k == (Abs(s) * Abs(s)) * (m * m);
    SquareRootUnique(n, k);
  }

  /** Along a coordinate axis the norm is the absolute value of the one component. */
  lemma NormOfAxisVector(norm: Vec3 -> real, v: Vec3, j: nat)
    requires IsEuclideanNorm(norm) && j < 3
    requires forall m :: 0 <= m < 3 && m != j ==> Component(v, m) == 0.0
    ensures norm(v) == Abs(Component(v, j))
  {
    var n := norm(v);
    NormFacts(norm, v);
    assert Component(v, 0) == v.x && Component(v, 1) == v.y && Component(v, 2) == v.z;
    assert Dot(v, v) == Abs(Component(v, j)) * Abs(Component(v, j));
    SquareRootUnique(n, Abs(Component(v, j)));
  }

  /** One 2x2 minor of two combinations of the same pair of vectors. */
  lemma MinorOfCombinations(p1: real, p2: real, q1: real, q2: real, k: real, m: real,
                            s: real, t: real, u: real, v: real, a1: real, a2: real, b1: real, b2: real)
    requires p1 == s * a1 + t * b1 && p2 == s * a2 + t * b2
    requires q1 == u * a1 + v * b1 && q2 == u * a2 + v * b2
    requires k == s * v - t * u && m == a1 * b2 - a2 * b1
    ensures p1 * q2 - p2 * q1 == k * m
  {
    calc {
      p1 * q2 - p2 * q1;
      (s * a1 + t * b1) * (u * a2 + v * b2) - (s * a2 + t * b2) * (u * a1 + v * b1);
      s * u * a1 * a2 + s * v * a1 * b2 + t * u * b1 * a2 + t * v * b1 * b2
        - (s * u * a2 * a1 + s * v * a2 * b1 + t * u * b2 * a1 + t * v * b2 * b1);
      (s * v - t * u) * (a1 * b2 - a2 * b1);
      k * m;
    }
  }

  /** The components of a combination of two vectors. */
  lemma CombinationComponents(a: Vec3, b: Vec3, s: real, t: real)
    ensures Add(Scale(s, a), Scale(t, b)).x == s * a.x + t * b.x
    ensures Add(Scale(s, a), Scale(t, b)).y == s * a.y + t * b.y
    ensures Add(Scale(s, a), Scale(t, b)).z == s * a.z + t * b.z
  {
  }

  lemma CrossOfCombinationsX(a: Vec3, b: Vec3, s: real, t: real, u: real, v: real)
    ensures Cross(Add(Scale(s, a), Scale(t, b)), Add(Scale(u, a), Scale(v, b))).x
         == (s * v - t * u) * Cross(a, b).x
  {
    var p, q := Add(Scale(s, a), Scale(t, b)), Add(Scale(u, a), Scale(v, b));
    CombinationComponents(a, b, s, t);
    CombinationComponents(a, b, u, v);
    MinorOfCombinations(p.y, p.z, q.y, q.z, s * v - t * u, Cross(a, b).x, s, t, u, v, a.y, a.z, b.y, b.z);
  }

  lemma CrossOfCombinationsY(a: Vec3, b: Vec3, s: real, t: real, u: real, v: real)
    ensures Cross(Add(Scale(s, a), Scale(t, b)), Add(Scale(u, a), Scale(v, b))).y
         == (s * v - t * u) * Cross(a, b).y
  {
    var p, q := Add(Scale(s, a), Scale(t, b)), Add(Scale(u, a), Scale(v, b));
    CombinationComponents(a, b, s, t);
    CombinationComponents(a, b, u, v);
    MinorOfCombinations(p.z, p.x, q.z, q.x, s * v - t * u, Cross(a, b).y, s, t, u, v, a.z, a.x, b.z, b.x);
  }

  lemma CrossOfCombinationsZ(a: Vec3, b: Vec3, s: real, t: real, u: real, v: real)
    ensures Cross(Add(Scale(s, a), Scale(t, b)), Add(Scale(u, a), Scale(v, b))).z
         == (s * v - t * u) * Cross(a, b).z
  {
    var p, q := Add(Scale(s, a), Scale(t, b)), Add(Scale(u, a), Scale(v, b));
    CombinationComponents(a, b, s, t);
    CombinationComponents(a, b, u, v);
    MinorOfCombinations(p.x, p.y, q.x, q.y, s * v - t * u, Cross(a, b).z, s, t, u, v, a.x, a.y, b.x, b.y);
  }

  /** The cross product is bilinear and alternating on combinations of two vectors. */
  lemma CrossOfCombinations(a: Vec3, b: Vec3, s: real, t: real, u: real, v: real)
    ensures Cross(Add(Scale(s, a), Scale(t, b)), Add(Scale(u, a), Scale(v, b)))
         == Scale(s * v - t * u, Cross(a, b))
  {
    CrossOfCombinationsX(a, b, s, t, u, v);
    CrossOfCombinationsY(a, b, s, t, u, v);
    CrossOfCombinationsZ(a, b, s, t, u, v);
    ScaledByComponents(Cross(Add(Scale(s, a), Scale(t, b)), Add(Scale(u, a), Scale(v, b))), s * v - t * u, Cross(a, b));
  }

  /** A vector whose every component is k times that of c is k times c. */
  lemma ScaledByComponents(w: Vec3, k: real, c: Vec3)
    requires w.x == k * c.x && w.y == k * c.y && w.z == k * c.z
    ensures w == Scale(k, c)
  {
  }

  /** The vector with coordinates a in the basis u, v, w. */
  function Combination(a: Vec3, u: Vec3, v: Vec3, w: Vec3): Vec3 {
    Add(Add(Scale(a.x, u), Scale(a.y, v)), Scale(a.z, w))
  }

  /** One 2x2 minor of two combinations of the same three vectors. */
  lemma MinorOfCombinations3(p1: real, p2: real, q1: real, q2: real,
                             b1: real, b2: real, b3: real, c1: real, c2: real, c3: real,
                             u1: real, u2: real, v1: real, v2: real, w1: real, w2: real,
                             k1: real, k2: real, k3: real, m1: real, m2: real, m3: real)
    requires p1 == b1 * u1 + b2 * v1 + b3 * w1 && p2 == b1 * u2 + b2 * v2 + b3 * w2
    requires q1 == c1 * u1 + c2 * v1 + c3 * w1 && q2 == c1 * u2 + c2 * v2 + c3 * w2
    requires k1 == b2 * c3 - b3 * c2 && k2 == b3 * c1 - b1 * c3 && k3 == b1 * c2 - b2 * c1
    requires m1 == v1 * w2 - v2 * w1 && m2 == w1 * u2 - w2 * u1 && m3 == u1 * v2 - u2 * v1
    ensures p1 * q2 - p2 * q1 == k1 * m1 + k2 * m2 + k3 * m3
  {
    calc {
      p1 * q2 - p2 * q1;
      (b1 * u1 + b2 * v1 + b3 * w1) * (c1 * u2 + c2 * v2 + c3 * w2)
        - (b1 * u2 + b2 * v2 + b3 * w2) * (c1 * u1 + c2 * v1 + c3 * w1);
      b1 * c2 * (u1 * v2 - u2 * v1) + b1 * c3 * (u1 * w2 - u2 * w1)
        + b2 * c1 * (v1 * u2 - v2 * u1) + b2 * c3 * (v1 * w2 - v2 * w1)
        + b3 * c1 * (w1 * u2 - w2 * u1) + b3 * c2 * (w1 * v2 - w2 * v1);
      (b2 * c3 - b3 * c2) * (v1 * w2 - v2 * w1)
        + (b3 * c1 - b1 * c3) * (w1 * u2 - w2 * u1)
        + (b1 * c2 - b2 * c1) * (u1 * v2 - u2 * v1);
    }
  }

  /** The components of a combination of three vectors. */
  lemma Combination3Components(a: Vec3, u: Vec3, v: Vec3, w: Vec3)
    ensures Combination(a, u, v, w).x == a.x * u.x + a.y * v.x + a.z * w.x
    ensures Combination(a, u, v, w).y == a.x * u.y + a.y * v.y + a.z * w.y
    ensures Combination(a, u, v, w).z == a.x * u.z + a.y * v.z + a.z * w.z
  {
  }

  /** The cross product of two combinations of u, v, w is a combination of the pairwise cross products. */
  lemma CrossOfCombinations3(b: Vec3, c: Vec3, u: Vec3, v: Vec3, w: Vec3)
    ensures Cross(Combination(b, u, v, w), Combination(c, u, v, w))
         == Combination(Cross(b, c), Cross(v, w), Cross(w, u), Cross(u, v))
  {
    CrossOfCombinations3X(b, c, u, v, w);
    CrossOfCombinations3Y(b, c, u, v, w);
    CrossOfCombinations3Z(b, c, u, v, w);
  }

  lemma CrossOfCombinations3X(b: Vec3, c: Vec3, u: Vec3, v: Vec3, w: Vec3)
    ensures Cross(Combination(b, u, v, w), Combination(c, u, v, w)).x
         == Combination(Cross(b, c), Cross(v, w), Cross(w, u), Cross(u, v)).x
  {
    var p, q := Combination(b, u, v, w), Combination(c, u, v, w);
    var k, vw, wu, uv := Cross(b, c), Cross(v, w), Cross(w, u), Cross(u, v);
    Combination3Components(b, u, v, w);
    Combination3Components(c, u, v, w);
    Combination3Components(k, vw, wu, uv);
    MinorOfCombinations3(p.y, p.z, q.y, q.z, b.x, b.y, b.z, c.x, c.y, c.z, u.y, u.z, v.y, v.z, w.y, w.z,
                         k.x, k.y, k.z, vw.x, wu.x, uv.x);
    assert Cross(p, q).x == p.y * q.z - p.z * q.y;
  }

  lemma CrossOfCombinations3Y(b: Vec3, c: Vec3, u: Vec3, v: Vec3, w: Vec3)
    ensures Cross(Combination(b, u, v, w), Combination(c, u, v, w)).y
         == Combination(Cross(b, c), Cross(v, w), Cross(w, u), Cross(u, v)).y
  {
    var p, q := Combination(b, u, v, w), Combination(c, u, v, w);
    var k, vw, wu, uv := Cross(b, c), Cross(v, w), Cross(w, u), Cross(u, v);
    Combination3Components(b, u, v, w);
    Combination3Components(c, u, v, w);
    Combination3Components(k, vw, wu, uv);
    MinorOfCombinations3(p.z, p.x, q.z, q.x, b.x, b.y, b.z, c.x, c.y, c.z, u.z, u.x, v.z, v.x, w.z, w.x,
                         k.x, k.y, k.z, vw.y, wu.y, uv.y);
    assert Cross(p, q).y == p.z * q.x - p.x * q.z;
  }

  lemma CrossOfCombinations3Z(b: Vec3, c: Vec3, u: Vec3, v: Vec3, w: Vec3)
    ensures Cross(Combination(b, u, v, w), Combination(c, u, v, w)).z
         == Combination(Cross(b, c), Cross(v, w), Cross(w, u), Cross(u, v)).z
  {
    var p, q := Combination(b, u, v, w), Combination(c, u, v, w);
    var k, vw, wu, uv := Cross(b, c), Cross(v, w), Cross(w, u), Cross(u, v);
    Combination3Components(b, u, v, w);
    Combination3Components(c, u, v, w);
    Combination3Components(k, vw, wu, uv);
    MinorOfCombinations3(p.x, p.y, q.x, q.y, b.x, b.y, b.z, c.x, c.y, c.z, u.x, u.y, v.x, v.y, w.x, w.y,
                         k.x, k.y, k.z, vw.z, wu.z, uv.z);
    assert Cross(p, q).z == p.x * q.y - p.y * q.x;
  }

  /** A sum of three combinations, regrouped by coefficient. */
  lemma Regroup3(a1: real, a2: real, a3: real, u1: real, u2: real, u3: real,
                 v1: real, v2: real, v3: real, w1: real, w2: real, w3: real, y1: real, y2: real, y3: real)
    ensures (a1 * u1 + a2 * v1 + a3 * w1) * y1 + (a1 * u2 + a2 * v2 + a3 * w2) * y2 + (a1 * u3 + a2 * v3 + a3 * w3) * y3
         == a1 * (u1 * y1 + u2 * y2 + u3 * y3) + a2 * (v1 * y1 + v2 * y2 + v3 * y3) + a3 * (w1 * y1 + w2 * y2 + w3 * y3)
  {
  }

  /** The dot product is linear in its first argument. */
  lemma DotOfCombination(a: Vec3, u: Vec3, v: Vec3, w: Vec3, y: Vec3)
    ensures Dot(Combination(a, u, v, w), y) == a.x * Dot(u, y) + a.y * Dot(v, y) + a.z * Dot(w, y)
  {
    Combination3Components(a, u, v, w);
    Regroup3(a.x, a.y, a.z, u.x, u.y, u.z, v.x, v.y, v.z, w.x, w.y, w.z, y.x, y.y, y.z);
  }

  /** The dot product is linear in its second argument. */
  lemma DotWithCombination(y: Vec3, k: Vec3, u: Vec3, v: Vec3, w: Vec3)
    ensures Dot(y, Combination(k, u, v, w)) == k.x * Dot(y, u) + k.y * Dot(y, v) + k.z * Dot(y, w)
  {
    DotOfCombination(k, u, v, w, y);
  }

  lemma TripleProductRotates(u: Vec3, v: Vec3, w: Vec3)
    ensures Dot(v, Cross(w, u)) == Dot(u, Cross(v, w))
  {
    calc {
      Dot(v, Cross(w, u));
      v.x * (w.y * u.z - w.z * u.y) + v.y * (w.z * u.x - w.x * u.z) + v.z * (w.x * u.y - w.y * u.x);
      u.x * (v.y * w.z - v.z * w.y) + u.y * (v.z * w.x - v.x * w.z) + u.z * (v.x * w.y - v.y * w.x);
      Dot(u, Cross(v, w));
    }
  }

  /** A triple product with a repeated vector vanishes, in both positions of the cross product. */
  lemma TripleProductRepeats(u: Vec3, v: Vec3)
    ensures Dot(u, Cross(u, v)) == 0.0 && Dot(u, Cross(v, u)) == 0.0
  {
    calc {
      Dot(u, Cross(u, v));
      u.x * (u.y * v.z - u.z * v.y) + u.y * (u.z * v.x - u.x * v.z) + u.z * (u.x * v.y - u.y * v.x);
      0.0;
    }
    calc {
      Dot(u, Cross(v, u));
      u.x * (v.y * u.z - v.z * u.y) + u.y * (v.z * u.x - v.x * u.z) + u.z * (v.x * u.y - v.y * u.x);
      0.0;
    }
  }

  /**
   * The determinant is multiplicative: the determinant of three combinations
   * of u, v, w is the determinant of their coordinates times that of u, v, w.
   */
  lemma Det3OfCombinations(a: Vec3, b: Vec3, c: Vec3, u: Vec3, v: Vec3, w: Vec3)
    ensures Det3(Combination(a, u, v, w), Combination(b, u, v, w), Combination(c, u, v, w))
         == Det3(a, b, c) * Det3(u, v, w)
  {
    var y := Combination(Cross(b, c), Cross(v, w), Cross(w, u), Cross(u, v));
    calc {
      Det3(Combination(a, u, v, w), Combination(b, u, v, w), Combination(c, u, v, w));
      Dot(Combination(a, u, v, w), Cross(Combination(b, u, v, w), Combination(c, u, v, w)));
      { CrossOfCombinations3(b, c, u, v, w); }
      Dot(Combination(a, u, v, w), y);
      { CofactorExpansion(a, Cross(b, c), u, v, w); }
      Dot(a, Cross(b, c)) * Det3(u, v, w);
    }
  }

  /** A combination of u, v, w dotted with a combination of their pairwise cross products. */
  lemma CofactorExpansion(a: Vec3, k: Vec3, u: Vec3, v: Vec3, w: Vec3)
    ensures Dot(Combination(a, u, v, w), Combination(k, Cross(v, w), Cross(w, u), Cross(u, v)))
         == Dot(a, k) * Det3(u, v, w)
  {
    var y := Combination(k, Cross(v, w), Cross(w, u), Cross(u, v));
    var d := Det3(u, v, w);
    var du, dv, dw := Dot(u, y), Dot(v, y), Dot(w, y);
    calc {
      Dot(Combination(a, u, v, w), y);
      { DotOfCombination(a, u, v, w, y); }
      a.x * du + a.y * dv + a.z * dw;
      { CofactorRowU(k, u, v, w); CofactorRowV(k, u, v, w); CofactorRowW(k, u, v, w);
        ScalarFactor3(a.x, a.y, a.z, k.x, k.y, k.z, d, du, dv, dw); }
      (a.x * k.x + a.y * k.y + a.z * k.z) * d;
    }
  }

  lemma CofactorRowU(k: Vec3, u: Vec3, v: Vec3, w: Vec3)
    ensures Dot(u, Combination(k, Cross(v, w), Cross(w, u), Cross(u, v))) == k.x * Det3(u, v, w)
  {
    DotWithCombination(u, k, Cross(v, w), Cross(w, u), Cross(u, v));
    TripleProductRepeats(u, v);
    TripleProductRepeats(u, w);
    ScaleByZeros(k.x, k.y, k.z, Det3(u, v, w), Dot(u, Cross(w, u)), Dot(u, Cross(u, v)));
  }

  lemma CofactorRowV(k: Vec3, u: Vec3, v: Vec3, w: Vec3)
    ensures Dot(v, Combination(k, Cross(v, w), Cross(w, u), Cross(u, v))) == k.y * Det3(u, v, w)
  {
    DotWithCombination(v, k, Cross(v, w), Cross(w, u), Cross(u, v));
    TripleProductRepeats(v, w);
    TripleProductRepeats(v, u);
    TripleProductRotates(u, v, w);
    ScaleByZeros(k.y, k.x, k.z, Det3(u, v, w), Dot(v, Cross(v, w)), Dot(v, Cross(u, v)));
  }

  lemma CofactorRowW(k: Vec3, u: Vec3, v: Vec3, w: Vec3)
    ensures Dot(w, Combination(k, Cross(v, w), Cross(w, u), Cross(u, v))) == k.z * Det3(u, v, w)
  {
    DotWithCombination(w, k, Cross(v, w), Cross(w, u), Cross(u, v));
    TripleProductRepeats(w, v);
    TripleProductRepeats(w, u);
    TripleProductRotates(u, v, w);
    TripleProductRotates(v, w, u);
    ScaleByZeros(k.z, k.x, k.y, Det3(u, v, w), Dot(w, Cross(v, w)), Dot(w, Cross(w, u)));
  }

  lemma ScaleByZeros(k: real, k2: real, k3: real, d: real, z2: real, z3: real)
    requires z2 == 0.0 && z3 == 0.0
    ensures k * d + k2 * z2 + k3 * z3 == k * d && k2 * z2 + k * d + k3 * z3 == k * d
    ensures k2 * z2 + k3 * z3 + k * d == k * d
  {
  }

  lemma ScalarFactor3(a1: real, a2: real, a3: real, k1: real, k2: real, k3: real, d: real,
                      d1: real, d2: real, d3: real)
    requires d1 == k1 * d && d2 == k2 * d && d3 == k3 * d
    ensures a1 * d1 + a2 * d2 + a3 * d3 == (a1 * k1 + a2 * k2 + a3 * k3) * d
  {
  }
}
