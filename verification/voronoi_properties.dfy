/**
  Properties of the model in module Voronoi: the winding normalisation's
  sign and idempotence, the solver's fixed first-match testing order, what
  the solver keeps, and what the region tests mean geometrically.
 */
module VoronoiProperties {
  import opened Vectors
  import opened Voronoi

  // ---------------------------------------------------------------------
  // Winding normalisation
  // ---------------------------------------------------------------------

  /** Exchanging the first two corners of a triangle negates its orientation. */
  lemma TriangleOrientationSwap(a: Vector3, b: Vector3, c: Vector3)
    ensures TriangleOrientation(b, a, c) == -TriangleOrientation(a, b, c)
  {
  }

  /** Exchanging the second and fourth corners of a tetrahedron negates its orientation. */
  lemma TetraOrientationSwap(a: Vector3, b: Vector3, c: Vector3, d: Vector3)
    ensures TetraOrientation(a, d, c, b) == -TetraOrientation(a, b, c, d)
  {
    TripleSwapFirst(Sub(d, a), Sub(b, a), Sub(c, a));
  }

  /**
    After normalisation the fourth corner of a tetrahedron lies on the
    non-positive side of abc, and the origin lies on the non-negative side
    of a triangle's plane.
   */
  lemma OrientFixesSign(s: seq<Vector3>)
    ensures |s| == 4 ==> var r := Orient(s); TetraOrientation(r[0], r[1], r[2], r[3]) <= 0.0
    ensures |s| == 3 ==> var r := Orient(s); TriangleOrientation(r[0], r[1], r[2]) >= 0.0
  {
    if |s| == 4 {
      TetraOrientationSwap(s[0], s[1], s[2], s[3]);
    } else if |s| == 3 {
      TriangleOrientationSwap(s[0], s[1], s[2]);
    }
  }

  /** Normalising an already normalised simplex changes nothing. */
  lemma OrientIdempotent(s: seq<Vector3>)
    ensures Orient(Orient(s)) == Orient(s)
  {
    OrientFixesSign(s);
  }

  // ---------------------------------------------------------------------
  // The fixed testing order
  // ---------------------------------------------------------------------

  /** The regions `simplexSolver` tests for a simplex of n points, in testing order. */
  function Order(n: nat): seq<Region> {
    if n == 2 then [Vertex(0), Vertex(1), Inside]
    else if n == 3 then [Vertex(0), Vertex(1), Vertex(2), Edge(0, 1), Edge(1, 2), Edge(2, 0), Inside]
    else if n == 4 then
      [Vertex(0), Vertex(1), Vertex(2), Vertex(3),
       Edge(0, 1), Edge(1, 2), Edge(1, 3), Edge(0, 3),
       Face(0, 1, 2), Face(1, 3, 2), Face(0, 3, 1), Face(3, 0, 2),
       Inside]
    else []
  }

  /**
    The test that decides region R of simplex s; Inside, the fallback,
    always passes. This is the table of `ClassifySegment`, `ClassifyTriangle`
    and `ClassifyTetra` given as data, one entry per region, so that
    `FirstHit` can pair it with the testing order `Order`.
   */
  predicate Test(p: Vector3, s: seq<Vector3>, R: Region) {
    if |s| == 2 then
      var a, b := s[0], s[1];
      match R
      case Vertex(0) => Behind(p, a, b)
      case Vertex(1) => Behind(p, b, a)
      case Inside => true
      case _ => false
    else if |s| == 3 then
      var a, b, c := s[0], s[1], s[2];
      match R
      case Vertex(0) => InVertexRegion2(p, a, b, c)
      case Vertex(1) => InVertexRegion2(p, b, a, c)
      case Vertex(2) => InVertexRegion2(p, c, a, b)
      case Edge(0, 1) => BeyondTriangleEdge(p, a, b, c)
      case Edge(1, 2) => BeyondTriangleEdge(p, b, c, a)
      case Edge(2, 0) => BeyondTriangleEdge(p, c, a, b)
      case Inside => true
      case _ => false
    else if |s| == 4 then
      var a, b, c, d := s[0], s[1], s[2], s[3];
      var nABC, nBAD, nBDC, nDAC := FaceNormal(a, b, c), FaceNormal(a, d, b), FaceNormal(b, d, c), FaceNormal(d, a, c);
      match R
      case Vertex(0) => InVertexRegion3(p, a, b, c, d)
      case Vertex(1) => InVertexRegion3(p, b, a, c, d)
      case Vertex(2) => InVertexRegion3(p, c, b, a, d)
      case Vertex(3) => InVertexRegion3(p, d, b, c, a)
      case Edge(0, 1) => InTetraEdgeRegion(p, a, b, nABC, nBAD)
      case Edge(1, 2) => InTetraEdgeRegion(p, b, c, nABC, nBDC)
      case Edge(1, 3) => InTetraEdgeRegion(p, b, d, nBDC, nBAD)
      case Edge(0, 3) => InTetraEdgeRegion(p, a, d, nBAD, nDAC)
      case Face(0, 1, 2) => InFacePrism(p, a, b, c, nABC)
      case Face(1, 3, 2) => InFacePrism(p, b, d, c, nBDC)
      case Face(0, 3, 1) => InFacePrism(p, a, d, b, nBAD)
      case Face(3, 0, 2) => InFacePrism(p, d, a, c, nDAC)
      case Inside => true
      case _ => false
    else
      false
  }

  /** The position in `order`, from k on, of the first region whose test passes. */
  function FirstHit(p: Vector3, s: seq<Vector3>, order: seq<Region>, k: nat): (r: nat)
    requires k <= |order|
    ensures k <= r <= |order|
    ensures r < |order| ==> Test(p, s, order[r])
    ensures forall j :: k <= j < r ==> !Test(p, s, order[j])
    decreases |order| - k
  {
    if k == |order| then k
    else if Test(p, s, order[k]) then k
    else FirstHit(p, s, order, k + 1)
  }

  /** One step of the scan. */
  lemma FirstHitStep(p: Vector3, s: seq<Vector3>, order: seq<Region>, k: nat)
    requires k < |order|
    ensures FirstHit(p, s, order, k) == if Test(p, s, order[k]) then k else FirstHit(p, s, order, k + 1)
  {
  }

  lemma SegmentIsFirstMatch(p: Vector3, s: seq<Vector3>)
    requires |s| == 2
    ensures FirstHit(p, s, Order(2), 0) < 3
    ensures Order(2)[FirstHit(p, s, Order(2), 0)] == Classify(p, s)
  {
    var o := Order(2);
    FirstHitStep(p, s, o, 0);
    FirstHitStep(p, s, o, 1);
    FirstHitStep(p, s, o, 2);
  }

  lemma TriangleIsFirstMatch(p: Vector3, s: seq<Vector3>)
    requires |s| == 3
    ensures FirstHit(p, s, Order(3), 0) < 7
    ensures Order(3)[FirstHit(p, s, Order(3), 0)] == Classify(p, s)
  {
    var o := Order(3);
    FirstHitStep(p, s, o, 0);
    FirstHitStep(p, s, o, 1);
    FirstHitStep(p, s, o, 2);
    FirstHitStep(p, s, o, 3);
    FirstHitStep(p, s, o, 4);
    FirstHitStep(p, s, o, 5);
    FirstHitStep(p, s, o, 6);
  }

  lemma TetraIsFirstMatch(p: Vector3, s: seq<Vector3>)
    requires |s| == 4
    ensures FirstHit(p, s, Order(4), 0) < 13
    ensures Order(4)[FirstHit(p, s, Order(4), 0)] == Classify(p, s)
  {
    var o := Order(4);
    FirstHitStep(p, s, o, 0);
    FirstHitStep(p, s, o, 1);
    FirstHitStep(p, s, o, 2);
    FirstHitStep(p, s, o, 3);
    FirstHitStep(p, s, o, 4);
    FirstHitStep(p, s, o, 5);
    FirstHitStep(p, s, o, 6);
    FirstHitStep(p, s, o, 7);
    FirstHitStep(p, s, o, 8);
    FirstHitStep(p, s, o, 9);
    FirstHitStep(p, s, o, 10);
    FirstHitStep(p, s, o, 11);
    FirstHitStep(p, s, o, 12);
  }

  /**
    The solver's branch is the first region, in the fixed order (vertices,
    then edges, then faces, then the interior), whose test passes.
   */
  lemma ClassifyIsFirstMatch(p: Vector3, s: seq<Vector3>)
    requires 2 <= |s| <= 4
    ensures FirstHit(p, s, Order(|s|), 0) < |Order(|s|)|
    ensures Order(|s|)[FirstHit(p, s, Order(|s|), 0)] == Classify(p, s)
  {
    if |s| == 2 {
      SegmentIsFirstMatch(p, s);
    } else if |s| == 3 {
      TriangleIsFirstMatch(p, s);
    } else {
      TetraIsFirstMatch(p, s);
    }
  }

  // ---------------------------------------------------------------------
  // What the solver keeps
  // ---------------------------------------------------------------------

  /** The region the solver reports is one of those it tests for that size. */
  lemma ClassifyInOrder(p: Vector3, s: seq<Vector3>)
    requires 2 <= |s| <= 4
    ensures Classify(p, s) in Order(|s|)
  {
    ClassifyIsFirstMatch(p, s);
  }

  /**
    Q never grows and only keeps points it held before, each at most as often
    as before; a Q of 0, 1 or more than 4 points is left as it was.
   */
  lemma ReduceDrawsFromInput(p: Vector3, s: seq<Vector3>)
    ensures |Reduce(p, s)| <= |s|
    ensures multiset(Reduce(p, s)) <= multiset(s)
    ensures !(2 <= |s| <= 4) ==> Reduce(p, s) == s
  {
    if 2 <= |s| <= 4 {
      KeptDrawsFromInput(s, Classify(p, s));
    }
  }

  /** Whatever region of a simplex of 2 to 4 points is chosen, Q keeps only points it held. */
  lemma KeptDrawsFromInput(s: seq<Vector3>, R: Region)
    requires 2 <= |s| <= 4 && Fits(R, |s|)
    ensures |Kept(s, R)| <= |s|
    ensures multiset(Kept(s, R)) <= multiset(s)
  {
    match R
    case Vertex(i) =>
      SingleFromInput(s, i);
    case Edge(i, j) =>
      if |s| == 4 {
        assert Kept(s, R) == s[..2];
        PrefixFromInput(s, 2);
      } else {
        PairFromInput(s, i, j);
      }
    case Face(_, _, _) =>
      if R == Face(3, 0, 2) {
        assert Kept(s, R) == s[..3];
        PrefixFromInput(s, 3);
      }
    case _ =>
  }

  lemma SingleFromInput(s: seq<Vector3>, i: nat)
    requires i < |s|
    ensures multiset([s[i]]) <= multiset(s)
  {
  }

  lemma PrefixFromInput(s: seq<Vector3>, n: nat)
    requires n <= |s|
    ensures multiset(s[..n]) <= multiset(s)
  {
    assert s == s[..n] + s[n..];
  }

  lemma PairFromInput(s: seq<Vector3>, i: nat, j: nat)
    requires 2 <= |s| <= 3 && i < |s| && j < |s| && i != j
    ensures multiset([s[i], s[j]]) <= multiset(s)
  {
    if |s| == 2 {
      assert s == [s[0], s[1]];
    } else {
      PairFromTriangle(s, i, j);
    }
  }

  lemma PairFromTriangle(s: seq<Vector3>, i: nat, j: nat)
    requires |s| == 3 && i < 3 && j < 3 && i != j
    ensures multiset([s[i], s[j]]) <= multiset(s)
  {
    assert s == [s[0], s[1], s[2]];
  }

  /** A query at the first point of Q reduces Q to that point, whatever the size up to 4. */
  lemma QueryAtFirstVertex(p: Vector3, s: seq<Vector3>)
    requires 1 <= |s| <= 4 && p == s[0]
    ensures 2 <= |s| ==> Classify(p, s) == Vertex(0)
    ensures Reduce(p, s) == [s[0]]
  {
    if |s| == 1 {
      assert s == [s[0]];
    } else {
      assert Sub(p, s[0]) == Zero;
    }
  }

  /**
    For segments and triangles Q becomes the chosen feature's own points: a
    vertex alone, a triangle edge in the order ab, bc, ca, or the whole
    simplex when no test matched.
   */
  lemma SmallSimplexKeepsFeature(p: Vector3, s: seq<Vector3>)
    requires 2 <= |s| <= 3
    ensures Classify(p, s).Vertex? ==> Reduce(p, s) == [s[Classify(p, s).v]]
    ensures Classify(p, s).Edge? ==>
      |s| == 3 && Classify(p, s) in {Edge(0, 1), Edge(1, 2), Edge(2, 0)} &&
      Reduce(p, s) == [s[Classify(p, s).e0], s[Classify(p, s).e1]]
    ensures !Classify(p, s).Face?
    ensures Classify(p, s) == Inside ==> Reduce(p, s) == s
  {
  }

  /** When no region test of a tetrahedron matches, all four points are kept. */
  lemma TetraInsideKeepsAll(p: Vector3, s: seq<Vector3>)
    requires |s| == 4 && Classify(p, s) == Inside
    ensures Reduce(p, s) == s
  {
  }

  /** Every edge branch of the size-4 solver keeps the first two points. */
  lemma TetraEdgeKeepsFirstTwo(p: Vector3, s: seq<Vector3>)
    requires |s| == 4 && Classify(p, s).Edge?
    ensures Reduce(p, s) == s[..2]
  {
  }

  /** Face dac keeps the first three points; the other three face branches leave Q empty. */
  lemma TetraFaceKeeps(p: Vector3, s: seq<Vector3>)
    requires |s| == 4 && Classify(p, s).Face?
    ensures Classify(p, s) == Face(3, 0, 2) ==> Reduce(p, s) == s[..3]
    ensures Classify(p, s) != Face(3, 0, 2) ==> Reduce(p, s) == []
  {
  }

  /** Solving again on a point or a segment the solver produced changes nothing. */
  lemma ReduceStableOnSegments(p: Vector3, s: seq<Vector3>)
    requires |s| <= 2
    ensures Reduce(p, Reduce(p, s)) == Reduce(p, s)
  {
  }

  // ---------------------------------------------------------------------
  // What the region tests mean
  // ---------------------------------------------------------------------

  /** The weighted sum of the points, `w[0] s[0] + ... `. */
  function Combination(s: seq<Vector3>, w: seq<real>): Vector3
    requires |w| == |s|
  {
    if s == [] then Zero else Add(Scale(w[0], s[0]), Combination(s[1..], w[1..]))
  }

  function Total(w: seq<real>): real {
    if w == [] then 0.0 else w[0] + Total(w[1..])
  }

  /** The offset `w[0] (s[0]-v) + ...` of a point in the cone at v spanned by s. */
  function ConeOffset(v: Vector3, s: seq<Vector3>, w: seq<real>): Vector3
    requires |w| == |s|
  {
    if s == [] then Zero else Add(Scale(w[0], Sub(s[0], v)), ConeOffset(v, s[1..], w[1..]))
  }

  /** A weighted sum of points is v scaled by the total weight plus the matching offset from v. */
  lemma {:induction false} CombinationAsOffset(v: Vector3, s: seq<Vector3>, w: seq<real>)
    requires |w| == |s|
    ensures Combination(s, w) == Add(Scale(Total(w), v), ConeOffset(v, s, w))
  {
    if s != [] {
      CombinationAsOffset(v, s[1..], w[1..]);
      Regroup(w[0], s[0], v, Total(w[1..]), ConeOffset(v, s[1..], w[1..]));
    }
  }

  /** k x + (T v + O) == (k + T) v + (k (x - v) + O) */
  lemma Regroup(k: real, x: Vector3, v: Vector3, T: real, O: Vector3)
    ensures Add(Scale(k, x), Add(Scale(T, v), O)) == Add(Scale(k + T, v), Add(Scale(k, Sub(x, v)), O))
  {
    RegroupCoordinate(k, x.x, v.x, T, O.x);
    RegroupCoordinate(k, x.y, v.y, T, O.y);
    RegroupCoordinate(k, x.z, v.z, T, O.z);
  }

  lemma RegroupCoordinate(k: real, x: real, v: real, T: real, o: real)
    ensures k * x + (T * v + o) == (k + T) * v + (k * (x - v) + o)
  {
  }

  /** If p lies behind v towards every point of s, it lies behind v towards the whole cone. */
  lemma {:induction false} ConeOffsetBehind(p: Vector3, v: Vector3, s: seq<Vector3>, w: seq<real>)
    requires |w| == |s|
    requires forall j :: 0 <= j < |s| ==> Behind(p, v, s[j])
    requires forall j :: 0 <= j < |w| ==> w[j] >= 0.0
    ensures Dot(Sub(p, v), ConeOffset(v, s, w)) <= 0.0
  {
    if s != [] {
      var u, head, rest := Sub(p, v), Scale(w[0], Sub(s[0], v)), ConeOffset(v, s[1..], w[1..]);
      ConeOffsetBehind(p, v, s[1..], w[1..]);
      DotAdd(u, head, rest);
      DotScale(u, w[0], Sub(s[0], v));
      assert Behind(p, v, s[0]);
      assert w[0] * Dot(u, Sub(s[0], v)) <= 0.0;
    }
  }

  /** Moving from v by any w that does not point towards p does not bring you closer to p. */
  lemma NearestAcrossHalfSpace(p: Vector3, v: Vector3, w: Vector3)
    requires Dot(Sub(p, v), w) <= 0.0
    ensures Dist2(p, v) <= Dist2(p, Add(v, w))
  {
    assert Dist2(p, Add(v, w)) == Dist2(p, v) - 2.0 * Dot(Sub(p, v), w) + Dot(w, w);
    DotSelfNonNegative(w);
  }

  /** When the solver picks vertex i, p lies behind that vertex towards every point of Q. */
  lemma VertexBranchFacesAll(p: Vector3, s: seq<Vector3>)
    requires Classify(p, s).Vertex?
    ensures forall j :: 0 <= j < |s| ==> Behind(p, s[Classify(p, s).v], s[j])
  {
    var i := Classify(p, s).v;
    forall j | 0 <= j < |s|
      ensures Behind(p, s[i], s[j])
    {
      if j == i {
        assert Sub(s[j], s[i]) == Zero;
      } else if j == 0 {
      } else if j == 1 {
      } else if j == 2 {
      } else {
      }
    }
  }

  /**
    A vertex the solver picks is a point of the simplex nearest to p: no
    convex combination of Q's points is closer.
   */
  lemma VertexBranchIsNearest(p: Vector3, s: seq<Vector3>, w: seq<real>)
    requires Classify(p, s).Vertex?
    requires |w| == |s| && Total(w) == 1.0
    requires forall j :: 0 <= j < |w| ==> w[j] >= 0.0
    ensures Dist2(p, s[Classify(p, s).v]) <= Dist2(p, Combination(s, w))
  {
    var v := s[Classify(p, s).v];
    VertexBranchFacesAll(p, s);
    ConeOffsetBehind(p, v, s, w);
    CombinationAsOffset(v, s, w);
    assert Scale(1.0, v) == v;
    NearestAcrossHalfSpace(p, v, ConeOffset(v, s, w));
  }

  /**
    When a segment is kept whole, the foot of the perpendicular from p lies
    strictly between its endpoints.
   */
  lemma SegmentInteriorFoot(p: Vector3, s: seq<Vector3>)
    requires |s| == 2 && Classify(p, s) == Inside
    ensures var e := Sub(s[1], s[0]);
      Dot(e, e) > 0.0 &&
      var t := Dot(Sub(p, s[0]), e) / Dot(e, e);
      0.0 < t < 1.0 && Dot(Sub(p, Add(s[0], Scale(t, e))), e) == 0.0
  {
    FootBetween(p, s[0], s[1]);
  }

  /** The arithmetic behind SegmentInteriorFoot. */
  lemma FootBetween(p: Vector3, a: Vector3, b: Vector3)
    requires !Behind(p, a, b) && !Behind(p, b, a)
    ensures var e := Sub(b, a);
      Dot(e, e) > 0.0 &&
      var t := Dot(Sub(p, a), e) / Dot(e, e);
      0.0 < t < 1.0 && Dot(Sub(p, Add(a, Scale(t, e))), e) == 0.0
  {
    var e := Sub(b, a);
    var D, E := Dot(Sub(p, a), e), Dot(e, e);
    FarEndProjection(p, a, b);
    var t := D / E;
    RatioBetween(D, E);
    assert Sub(p, Add(a, Scale(t, e))) == Sub(Sub(p, a), Scale(t, e));
    DotSubScale(Sub(p, a), t, e);
  }

  /** Seen from b, the projection of p on the segment is what is left of |e|^2 after a's share. */
  lemma FarEndProjection(p: Vector3, a: Vector3, b: Vector3)
    ensures Dot(Sub(p, b), Sub(a, b)) == Dot(Sub(b, a), Sub(b, a)) - Dot(Sub(p, a), Sub(b, a))
  {
  }

  lemma RatioBetween(D: real, E: real)
    requires 0.0 < D < E
    ensures 0.0 < D / E < 1.0 && D / E * E == D
  {
    var r := D / E;
    assert r * E == D;
    if r >= 1.0 {
      ScaleUp(r, E);
      assert false;
    }
  }

  lemma ScaleUp(r: real, E: real)
    requires r >= 1.0 && E > 0.0
    ensures r * E >= E
  {
    assert (r - 1.0) * E >= 0.0;
  }

  lemma DotSubScale(u: Vector3, t: real, e: Vector3)
    requires Dot(e, e) != 0.0 && t == Dot(u, e) / Dot(e, e)
    ensures Dot(Sub(u, Scale(t, e)), e) == 0.0
  {
    assert Dot(Sub(u, Scale(t, e)), e) == Dot(u, e) - t * Dot(e, e);
  }

  /**
    The triangle's edge normal lies in the triangle's plane, is orthogonal
    to its edge and points away from the third corner.
   */
  lemma TriangleEdgeNormalOutward(u: Vector3, v: Vector3, w: Vector3)
    ensures Dot(EdgeNormal(u, v, w), Sub(v, u)) == 0.0
    ensures Dot(EdgeNormal(u, v, w), FaceNormal(u, v, w)) == 0.0
    ensures Dot(EdgeNormal(u, v, w), Sub(w, u)) <= 0.0
  {
    var e, f := Sub(v, u), Sub(w, u);
    var n := Cross(e, f);
    CrossOrthogonal(e, n);
    TripleSwapFirst(e, f, n);
    TripleRotate(n, e, f);
    DotSelfNonNegative(n);
    assert Dot(EdgeNormal(u, v, w), f) == Triple(f, e, n);
  }

  // ---------------------------------------------------------------------
  // Centroid
  // ---------------------------------------------------------------------

  /** The face normal does not depend on which corner the triangle is read from. */
  lemma FaceNormalRotate(u: Vector3, v: Vector3, w: Vector3)
    ensures FaceNormal(v, w, u) == FaceNormal(u, v, w)
  {
  }

  /** The centroid does not depend on the order of the corners. */
  lemma CentroidRotate(a: Vector3, b: Vector3, c: Vector3)
    ensures Centroid(b, c, a) == Centroid(a, b, c)
  {
  }

  /** A half-plane through edge ab that holds c also holds the centroid. */
  lemma CentroidSide(a: Vector3, b: Vector3, c: Vector3, h: Vector3)
    requires Dot(Sub(b, a), h) == 0.0 && Dot(Sub(c, a), h) <= 0.0
    ensures Dot(Sub(Centroid(a, b, c), a), h) <= 0.0
  {
    var g := Centroid(a, b, c);
    assert Sub(g, a) == Scale(1.0 / 3.0, Add(Sub(b, a), Sub(c, a)));
    assert Dot(Sub(g, a), h) == (Dot(Sub(b, a), h) + Dot(Sub(c, a), h)) / 3.0;
  }

  /** Edge uv's half-plane, with the triangle's own normal, holds the centroid. */
  lemma CentroidInsideEdge(u: Vector3, v: Vector3, w: Vector3)
    ensures Dot(Sub(Centroid(u, v, w), u), Cross(Sub(v, u), FaceNormal(u, v, w))) <= 0.0
  {
    TriangleEdgeNormalOutward(u, v, w);
    var h := EdgeNormal(u, v, w);
    assert Dot(Sub(v, u), h) == Dot(h, Sub(v, u));
    assert Dot(Sub(w, u), h) == Dot(h, Sub(w, u));
    CentroidSide(u, v, w, h);
  }

  /**
    The centroid `com` computes passes the face test of its own triangle, so
    `surfaceTriangle` called with the triangle's normal keeps that triangle
    for it.
   */
  lemma CentroidInFacePrism(a: Vector3, b: Vector3, c: Vector3)
    ensures InFacePrism(Centroid(a, b, c), a, b, c, FaceNormal(a, b, c))
  {
    CentroidInsideEdge(a, b, c);
    CentroidInsideEdge(b, c, a);
    CentroidInsideEdge(c, a, b);
    FaceNormalRotate(a, b, c);
    FaceNormalRotate(b, c, a);
    CentroidRotate(a, b, c);
    CentroidRotate(b, c, a);
  }

  /** The centroid of three copies of one point is that point. */
  lemma CentroidOfCoincidentPoints(a: Vector3)
    ensures Centroid(a, a, a) == a
  {
  }
}
