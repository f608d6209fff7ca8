/**
  Two concrete inputs on which `simplexSolver` keeps a feature that is not
  the one nearest to the query point. The chain of sign tests is a first
  match, not a nearest-feature search:
  - the triangle's edge test for ab does not check that p projects inside
    ab, so a point past b's end of ab keeps [a, b] although bc is nearer;
  - a point strictly inside a tetrahedron can pass the face test of abc,
    which has no outward-side check, so Q is emptied instead of reaching
    the branch that keeps all four points.
  Each arithmetic fact about the literal points has a lemma of its own,
  and the lemmas that combine them only call those.
 */
module VoronoiExamples {
  import opened Vectors
  import opened Voronoi

  // ---------------------------------------------------------------------
  // A triangle whose kept edge is not the nearest one
  // ---------------------------------------------------------------------

  /** The triangle (0,0,0), (1,0,0), (3,1,0) and the point (1.5, -0.1, 0) just below edge ab. */
  predicate SlantTriangle(a: Vector3, b: Vector3, c: Vector3, p: Vector3) {
    a == Vector3(0.0, 0.0, 0.0) && b == Vector3(1.0, 0.0, 0.0) &&
    c == Vector3(3.0, 1.0, 0.0) && p == Vector3(1.5, -0.1, 0.0)
  }

  lemma SlantNotVertex0(a: Vector3, b: Vector3, c: Vector3, p: Vector3)
    requires SlantTriangle(a, b, c, p)
    ensures !InVertexRegion2(p, a, b, c)
  {
    assert Dot(Sub(p, a), Sub(b, a)) == 1.5;
  }

  lemma SlantNotVertex1(a: Vector3, b: Vector3, c: Vector3, p: Vector3)
    requires SlantTriangle(a, b, c, p)
    ensures !InVertexRegion2(p, b, a, c)
  {
    assert Dot(Sub(p, b), Sub(c, b)) == 0.9;
  }

  lemma SlantNotVertex2(a: Vector3, b: Vector3, c: Vector3, p: Vector3)
    requires SlantTriangle(a, b, c, p)
    ensures !InVertexRegion2(p, c, a, b)
  {
    assert Dot(Sub(p, c), Sub(a, c)) == 5.6;
  }

  lemma SlantNormal(a: Vector3, b: Vector3, c: Vector3, p: Vector3)
    requires SlantTriangle(a, b, c, p)
    ensures FaceNormal(a, b, c) == Vector3(0.0, 0.0, 1.0)
  {
  }

  lemma SlantEdgeNormal(a: Vector3, b: Vector3, c: Vector3, p: Vector3, n: Vector3)
    requires SlantTriangle(a, b, c, p) && n == Vector3(0.0, 0.0, 1.0)
    ensures Cross(Sub(b, a), n) == Vector3(0.0, -1.0, 0.0)
  {
  }

  lemma SlantEdgeSide(a: Vector3, b: Vector3, c: Vector3, p: Vector3)
    requires SlantTriangle(a, b, c, p)
    ensures Dot(Sub(p, a), Vector3(0.0, -1.0, 0.0)) == 0.1
  {
  }

  lemma SlantBeyondAB(a: Vector3, b: Vector3, c: Vector3, p: Vector3)
    requires SlantTriangle(a, b, c, p)
    ensures BeyondTriangleEdge(p, a, b, c)
  {
    SlantNormal(a, b, c, p);
    SlantEdgeNormal(a, b, c, p, FaceNormal(a, b, c));
    SlantEdgeSide(a, b, c, p);
  }

  lemma SlantPointOnBC(a: Vector3, b: Vector3, c: Vector3, p: Vector3)
    requires SlantTriangle(a, b, c, p)
    ensures Add(b, Scale(0.18, Sub(c, b))) == Vector3(1.36, 0.18, 0.0)
  {
  }

  lemma SlantDistanceToPoint(p: Vector3, q: Vector3)
    requires p == Vector3(1.5, -0.1, 0.0) && q == Vector3(1.36, 0.18, 0.0)
    ensures Dist2(p, q) == 0.098
  {
  }

  lemma SlantPointOnAB(a: Vector3, b: Vector3, c: Vector3, p: Vector3, t: real)
    requires SlantTriangle(a, b, c, p)
    ensures Add(a, Scale(t, Sub(b, a))) == Vector3(t, 0.0, 0.0)
  {
  }

  lemma SlantDistanceToAxis(p: Vector3, x: Vector3, t: real)
    requires p == Vector3(1.5, -0.1, 0.0) && x == Vector3(t, 0.0, 0.0)
    ensures Dist2(p, x) == (1.5 - t) * (1.5 - t) + 0.01
  {
  }

  lemma SquareFromHalf(u: real)
    requires u >= 0.5
    ensures u * u >= 0.25
  {
    var e := u - 0.5;
    assert u * u == 0.25 + e * (1.0 + e);
  }

  /** Edge bc has a point at squared distance 0.098 from p. */
  lemma SlantDistanceToBC(a: Vector3, b: Vector3, c: Vector3, p: Vector3)
    requires SlantTriangle(a, b, c, p)
    ensures Dist2(p, Add(b, Scale(0.18, Sub(c, b)))) == 0.098
  {
    SlantPointOnBC(a, b, c, p);
    SlantDistanceToPoint(p, Add(b, Scale(0.18, Sub(c, b))));
  }

  /** Every point of edge ab is at squared distance at least 0.26 from p. */
  lemma SlantDistanceToAB(a: Vector3, b: Vector3, c: Vector3, p: Vector3, t: real)
    requires SlantTriangle(a, b, c, p) && 0.0 <= t <= 1.0
    ensures Dist2(p, Add(a, Scale(t, Sub(b, a)))) >= 0.26
  {
    SlantPointOnAB(a, b, c, p, t);
    SlantDistanceToAxis(p, Add(a, Scale(t, Sub(b, a))), t);
    SquareFromHalf(1.5 - t);
  }

  /** When no vertex test passes and edge ab's test does, the size-3 branch keeps [a, b]. */
  lemma EdgeABFirst(p: Vector3, a: Vector3, b: Vector3, c: Vector3)
    requires !InVertexRegion2(p, a, b, c) && !InVertexRegion2(p, b, a, c) && !InVertexRegion2(p, c, a, b)
    requires BeyondTriangleEdge(p, a, b, c)
    ensures Classify(p, [a, b, c]) == Edge(0, 1)
    ensures Reduce(p, [a, b, c]) == [a, b]
  {
  }

  /**
    The triangle's edge test for ab has no check that p projects inside ab,
    so a point beyond ab's end keeps edge ab although edge bc is nearer.
   */
  lemma EdgeKeptIsNotNearest(a: Vector3, b: Vector3, c: Vector3, p: Vector3, t: real)
    requires SlantTriangle(a, b, c, p) && 0.0 <= t <= 1.0
    ensures Classify(p, [a, b, c]) == Edge(0, 1)
    ensures Reduce(p, [a, b, c]) == [a, b]
    ensures Dist2(p, Add(b, Scale(0.18, Sub(c, b)))) < Dist2(p, Add(a, Scale(t, Sub(b, a))))
  {
    SlantNotVertex0(a, b, c, p);
    SlantNotVertex1(a, b, c, p);
    SlantNotVertex2(a, b, c, p);
    SlantBeyondAB(a, b, c, p);
    EdgeABFirst(p, a, b, c);
    SlantDistanceToBC(a, b, c, p);
    SlantDistanceToAB(a, b, c, p, t);
  }

  // ---------------------------------------------------------------------
  // A point inside a tetrahedron is sent to a face
  // ---------------------------------------------------------------------

  /** The unit corner tetrahedron 0, e1, e2, e3 and the point (1/4, 1/4, 1/4) inside it. */
  predicate CornerTetra(a: Vector3, b: Vector3, c: Vector3, d: Vector3, p: Vector3) {
    a == Vector3(0.0, 0.0, 0.0) &&
    b == Vector3(1.0, 0.0, 0.0) &&
    c == Vector3(0.0, 1.0, 0.0) &&
    d == Vector3(0.0, 0.0, 1.0) &&
    p == Vector3(0.25, 0.25, 0.25)
  }

  lemma CornerNormalABC(a: Vector3, b: Vector3, c: Vector3, d: Vector3, p: Vector3)
    requires CornerTetra(a, b, c, d, p)
    ensures FaceNormal(a, b, c) == Vector3(0.0, 0.0, 1.0)
  {
  }

  lemma CornerNormalBAD(a: Vector3, b: Vector3, c: Vector3, d: Vector3, p: Vector3)
    requires CornerTetra(a, b, c, d, p)
    ensures FaceNormal(a, d, b) == Vector3(0.0, 1.0, 0.0)
  {
  }

  lemma CornerNormalBDC(a: Vector3, b: Vector3, c: Vector3, d: Vector3, p: Vector3)
    requires CornerTetra(a, b, c, d, p)
    ensures FaceNormal(b, d, c) == Vector3(-1.0, -1.0, -1.0)
  {
  }

  lemma CornerNormalDAC(a: Vector3, b: Vector3, c: Vector3, d: Vector3, p: Vector3)
    requires CornerTetra(a, b, c, d, p)
    ensures FaceNormal(d, a, c) == Vector3(1.0, 0.0, 0.0)
  {
  }

  lemma CornerNotVertex0(a: Vector3, b: Vector3, c: Vector3, d: Vector3, p: Vector3)
    requires CornerTetra(a, b, c, d, p)
    ensures !InVertexRegion3(p, a, b, c, d)
  {
    assert Dot(Sub(p, a), Sub(b, a)) == 0.25;
  }

  lemma CornerNotVertex1(a: Vector3, b: Vector3, c: Vector3, d: Vector3, p: Vector3)
    requires CornerTetra(a, b, c, d, p)
    ensures !InVertexRegion3(p, b, a, c, d)
  {
    assert Dot(Sub(p, b), Sub(a, b)) == 0.75;
  }

  lemma CornerNotVertex2(a: Vector3, b: Vector3, c: Vector3, d: Vector3, p: Vector3)
    requires CornerTetra(a, b, c, d, p)
    ensures !InVertexRegion3(p, c, b, a, d)
  {
    assert Dot(Sub(p, c), Sub(b, c)) == 1.0;
  }

  lemma CornerNotVertex3(a: Vector3, b: Vector3, c: Vector3, d: Vector3, p: Vector3)
    requires CornerTetra(a, b, c, d, p)
    ensures !InVertexRegion3(p, d, b, c, a)
  {
    assert Dot(Sub(p, d), Sub(b, d)) == 1.0;
  }

  lemma CornerEdgeHalfPlane0(a: Vector3, b: Vector3, c: Vector3, d: Vector3, p: Vector3, n1: Vector3, n2: Vector3)
    requires CornerTetra(a, b, c, d, p) && n1 == Vector3(0.0, 0.0, 1.0) && n2 == Vector3(0.0, 1.0, 0.0)
    ensures Cross(Sub(a, b), n1) == Vector3(0.0, 1.0, 0.0)
  {
  }

  lemma CornerEdgeSide0(a: Vector3, b: Vector3, c: Vector3, d: Vector3, p: Vector3)
    requires CornerTetra(a, b, c, d, p)
    ensures Dot(Sub(p, a), Vector3(0.0, 1.0, 0.0)) == 0.25
  {
  }

  lemma CornerNotEdge0(a: Vector3, b: Vector3, c: Vector3, d: Vector3, p: Vector3, n1: Vector3, n2: Vector3)
    requires CornerTetra(a, b, c, d, p) && n1 == Vector3(0.0, 0.0, 1.0) && n2 == Vector3(0.0, 1.0, 0.0)
    ensures !InTetraEdgeRegion(p, a, b, n1, n2)
  {
    CornerEdgeHalfPlane0(a, b, c, d, p, n1, n2);
    CornerEdgeSide0(a, b, c, d, p);
  }

  lemma CornerEdgeHalfPlane1(a: Vector3, b: Vector3, c: Vector3, d: Vector3, p: Vector3, n1: Vector3, n2: Vector3)
    requires CornerTetra(a, b, c, d, p) && n1 == Vector3(0.0, 0.0, 1.0) && n2 == Vector3(-1.0, -1.0, -1.0)
    ensures Cross(Sub(b, c), n1) == Vector3(-1.0, -1.0, 0.0)
  {
  }

  lemma CornerEdgeSide1(a: Vector3, b: Vector3, c: Vector3, d: Vector3, p: Vector3)
    requires CornerTetra(a, b, c, d, p)
    ensures Dot(Sub(p, b), Vector3(-1.0, -1.0, 0.0)) == 0.5
  {
  }

  lemma CornerNotEdge1(a: Vector3, b: Vector3, c: Vector3, d: Vector3, p: Vector3, n1: Vector3, n2: Vector3)
    requires CornerTetra(a, b, c, d, p) && n1 == Vector3(0.0, 0.0, 1.0) && n2 == Vector3(-1.0, -1.0, -1.0)
    ensures !InTetraEdgeRegion(p, b, c, n1, n2)
  {
    CornerEdgeHalfPlane1(a, b, c, d, p, n1, n2);
    CornerEdgeSide1(a, b, c, d, p);
  }

  lemma CornerEdgeHalfPlane2(a: Vector3, b: Vector3, c: Vector3, d: Vector3, p: Vector3, n1: Vector3, n2: Vector3)
    requires CornerTetra(a, b, c, d, p) && n1 == Vector3(-1.0, -1.0, -1.0) && n2 == Vector3(0.0, 1.0, 0.0)
    ensures Cross(Sub(b, d), n1) == Vector3(-1.0, 2.0, -1.0)
  {
  }

  lemma CornerEdgeSide2(a: Vector3, b: Vector3, c: Vector3, d: Vector3, p: Vector3)
    requires CornerTetra(a, b, c, d, p)
    ensures Dot(Sub(p, b), Vector3(-1.0, 2.0, -1.0)) == 1.0
  {
  }

  lemma CornerNotEdge2(a: Vector3, b: Vector3, c: Vector3, d: Vector3, p: Vector3, n1: Vector3, n2: Vector3)
    requires CornerTetra(a, b, c, d, p) && n1 == Vector3(-1.0, -1.0, -1.0) && n2 == Vector3(0.0, 1.0, 0.0)
    ensures !InTetraEdgeRegion(p, b, d, n1, n2)
  {
    CornerEdgeHalfPlane2(a, b, c, d, p, n1, n2);
    CornerEdgeSide2(a, b, c, d, p);
  }

  lemma CornerEdgeHalfPlane3(a: Vector3, b: Vector3, c: Vector3, d: Vector3, p: Vector3, n1: Vector3, n2: Vector3)
    requires CornerTetra(a, b, c, d, p) && n1 == Vector3(0.0, 1.0, 0.0) && n2 == Vector3(1.0, 0.0, 0.0)
    ensures Cross(Sub(a, d), n1) == Vector3(1.0, 0.0, 0.0)
  {
  }

  lemma CornerEdgeSide3(a: Vector3, b: Vector3, c: Vector3, d: Vector3, p: Vector3)
    requires CornerTetra(a, b, c, d, p)
    ensures Dot(Sub(p, a), Vector3(1.0, 0.0, 0.0)) == 0.25
  {
  }

  lemma CornerNotEdge3(a: Vector3, b: Vector3, c: Vector3, d: Vector3, p: Vector3, n1: Vector3, n2: Vector3)
    requires CornerTetra(a, b, c, d, p) && n1 == Vector3(0.0, 1.0, 0.0) && n2 == Vector3(1.0, 0.0, 0.0)
    ensures !InTetraEdgeRegion(p, a, d, n1, n2)
  {
    CornerEdgeHalfPlane3(a, b, c, d, p, n1, n2);
    CornerEdgeSide3(a, b, c, d, p);
  }

  lemma CornerFaceHalfPlane0(a: Vector3, b: Vector3, c: Vector3, d: Vector3, p: Vector3, n: Vector3)
    requires CornerTetra(a, b, c, d, p) && n == Vector3(0.0, 0.0, 1.0)
    ensures Cross(Sub(b, a), n) == Vector3(0.0, -1.0, 0.0)
  {
  }

  lemma CornerFaceSide0(a: Vector3, b: Vector3, c: Vector3, d: Vector3, p: Vector3)
    requires CornerTetra(a, b, c, d, p)
    ensures Dot(Sub(p, a), Vector3(0.0, -1.0, 0.0)) == -0.25
  {
  }

  lemma CornerFaceHalfPlane1(a: Vector3, b: Vector3, c: Vector3, d: Vector3, p: Vector3, n: Vector3)
    requires CornerTetra(a, b, c, d, p) && n == Vector3(0.0, 0.0, 1.0)
    ensures Cross(Sub(c, b), n) == Vector3(1.0, 1.0, 0.0)
  {
  }

  lemma CornerFaceSide1(a: Vector3, b: Vector3, c: Vector3, d: Vector3, p: Vector3)
    requires CornerTetra(a, b, c, d, p)
    ensures Dot(Sub(p, b), Vector3(1.0, 1.0, 0.0)) == -0.5
  {
  }

  lemma CornerFaceHalfPlane2(a: Vector3, b: Vector3, c: Vector3, d: Vector3, p: Vector3, n: Vector3)
    requires CornerTetra(a, b, c, d, p) && n == Vector3(0.0, 0.0, 1.0)
    ensures Cross(Sub(a, c), n) == Vector3(-1.0, 0.0, 0.0)
  {
  }

  lemma CornerFaceSide2(a: Vector3, b: Vector3, c: Vector3, d: Vector3, p: Vector3)
    requires CornerTetra(a, b, c, d, p)
    ensures Dot(Sub(p, c), Vector3(-1.0, 0.0, 0.0)) == -0.25
  {
  }

  lemma CornerInFaceABC(a: Vector3, b: Vector3, c: Vector3, d: Vector3, p: Vector3, n: Vector3)
    requires CornerTetra(a, b, c, d, p) && n == Vector3(0.0, 0.0, 1.0)
    ensures InFacePrism(p, a, b, c, n)
  {
    CornerFaceHalfPlane0(a, b, c, d, p, n);
    CornerFaceSide0(a, b, c, d, p);
    CornerFaceHalfPlane1(a, b, c, d, p, n);
    CornerFaceSide1(a, b, c, d, p);
    CornerFaceHalfPlane2(a, b, c, d, p, n);
    CornerFaceSide2(a, b, c, d, p);
  }

  /** When every vertex and edge test fails and face abc's test passes, the size-4 branch picks face abc. */
  lemma FaceABCFirst(p: Vector3, a: Vector3, b: Vector3, c: Vector3, d: Vector3)
    requires !InVertexRegion3(p, a, b, c, d) && !InVertexRegion3(p, b, a, c, d)
    requires !InVertexRegion3(p, c, b, a, d) && !InVertexRegion3(p, d, b, c, a)
    requires !InTetraEdgeRegion(p, a, b, FaceNormal(a, b, c), FaceNormal(a, d, b))
    requires !InTetraEdgeRegion(p, b, c, FaceNormal(a, b, c), FaceNormal(b, d, c))
    requires !InTetraEdgeRegion(p, b, d, FaceNormal(b, d, c), FaceNormal(a, d, b))
    requires !InTetraEdgeRegion(p, a, d, FaceNormal(a, d, b), FaceNormal(d, a, c))
    requires InFacePrism(p, a, b, c, FaceNormal(a, b, c))
    ensures Classify(p, [a, b, c, d]) == Face(0, 1, 2)
    ensures Reduce(p, [a, b, c, d]) == []
  {
  }

  /**
    The point (1/4, 1/4, 1/4), strictly inside the corner tetrahedron,
    passes none of the vertex and edge tests but passes the test of face
    abc, which has no outward-side check. So Q is emptied, and the final
    branch, which keeps all four points, is not reached for it.
   */
  lemma InteriorPointEmptiesTetra(a: Vector3, b: Vector3, c: Vector3, d: Vector3, p: Vector3)
    requires CornerTetra(a, b, c, d, p)
    ensures Classify(p, [a, b, c, d]) == Face(0, 1, 2)
    ensures Reduce(p, [a, b, c, d]) == []
  {
    CornerNormalABC(a, b, c, d, p);
    CornerNormalBAD(a, b, c, d, p);
    CornerNormalBDC(a, b, c, d, p);
    CornerNormalDAC(a, b, c, d, p);
    CornerNotVertex0(a, b, c, d, p);
    CornerNotVertex1(a, b, c, d, p);
    CornerNotVertex2(a, b, c, d, p);
    CornerNotVertex3(a, b, c, d, p);
    CornerNotEdge0(a, b, c, d, p, FaceNormal(a, b, c), FaceNormal(a, d, b));
    CornerNotEdge1(a, b, c, d, p, FaceNormal(a, b, c), FaceNormal(b, d, c));
    CornerNotEdge2(a, b, c, d, p, FaceNormal(b, d, c), FaceNormal(a, d, b));
    CornerNotEdge3(a, b, c, d, p, FaceNormal(a, d, b), FaceNormal(d, a, c));
    CornerInFaceABC(a, b, c, d, p, FaceNormal(a, b, c));
    FaceABCFirst(p, a, b, c, d);
  }
}
