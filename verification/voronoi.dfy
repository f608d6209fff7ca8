/**
  The geometric core of the Voronoi-region viewer (`CGView` in Voronoi.cpp):
  winding normalisation of a simplex, the vertex/edge/face region tests, the
  centroid helper and `simplexSolver`. For a simplex Q of one to four
  points and a query point p, `simplexSolver` runs a fixed chain of sign
  tests, one per vertex, edge and face, and rewrites Q in place to what
  the branch of the first test that passes keeps. That feature is not
  always the one nearest to p: an edge test of the triangle does not check
  that p projects inside the edge, and the face tests of the tetrahedron
  do not check that p lies outside the face.

  Every branch is kept as the source writes it, including the size-4
  branches that keep vertices other than the feature's own.
 */
module Voronoi {
  import opened Vectors
  import opened PointLists

  // ---------------------------------------------------------------------
  // Winding normalisation (`correctSimplexOrientation`)
  // ---------------------------------------------------------------------

  /** The normal `(v-u) % (w-u)` of the triangle u, v, w. */
  function FaceNormal(u: Vector3, v: Vector3, w: Vector3): Vector3 {
    Cross(Sub(v, u), Sub(w, u))
  }

  /** `(d-a) . ((b-a) % (c-a))`: the side of plane abc on which d lies. */
  function TetraOrientation(a: Vector3, b: Vector3, c: Vector3, d: Vector3): real {
    Dot(Sub(d, a), FaceNormal(a, b, c))
  }

  /** `(0-a) . ((b-a) % (c-a))`: the side of plane abc on which the origin lies. */
  function TriangleOrientation(a: Vector3, b: Vector3, c: Vector3): real {
    Dot(Sub(Zero, a), FaceNormal(a, b, c))
  }

  /** s with the points at i and j exchanged. */
  function Swap(s: seq<Vector3>, i: nat, j: nat): (r: seq<Vector3>)
    requires i < j < |s|
    ensures |r| == |s| && multiset(r) == multiset(s)
    ensures r[i] == s[j] && r[j] == s[i]
    ensures forall k :: 0 <= k < |s| && k != i && k != j ==> r[k] == s[k]
  {
    s[i := s[j]][j := s[i]]
  }

  /**
    The simplex after `correctSimplexOrientation`: a tetrahedron whose fourth
    point lies on the positive side of abc gets points 1 and 3 exchanged, a
    triangle whose plane has the origin on its negative side gets points 0
    and 1 exchanged, and every other simplex is left alone.
   */
  function Orient(s: seq<Vector3>): (r: seq<Vector3>)
    ensures |r| == |s| && multiset(r) == multiset(s)
    ensures |s| != 3 && |s| != 4 ==> r == s
  {
    if |s| == 4 && TetraOrientation(s[0], s[1], s[2], s[3]) > 0.0 then
      Swap(s, 1, 3)
    else if |s| == 3 && TriangleOrientation(s[0], s[1], s[2]) < 0.0 then
      Swap(s, 0, 1)
    else
      s
  }

  method CorrectSimplexOrientation(simplex: PointList)
    modifies simplex
    ensures simplex.items == Orient(old(simplex.items))
  {
    if |simplex.items| < 3 {
      return;
    }
    if |simplex.items| == 4 {
      var a, b, c, d := simplex.items[0], simplex.items[1], simplex.items[2], simplex.items[3];
      var n := Cross(Sub(b, a), Sub(c, a));
      if Dot(Sub(d, a), n) > 0.0 {
        simplex.SetAt(1, d);
        simplex.SetAt(3, b);
      }
    }
    if |simplex.items| == 3 {
      var a, b, c := simplex.items[0], simplex.items[1], simplex.items[2];
      var n := Cross(Sub(b, a), Sub(c, a));
      if Dot(Sub(Zero, a), n) < 0.0 {
        simplex.SetAt(0, b);
        simplex.SetAt(1, a);
      }
    }
  }

  // ---------------------------------------------------------------------
  // Region tests
  // ---------------------------------------------------------------------

  /** `(p-v) . (x-v) <= 0`: p lies behind v as seen along the edge from v to x. */
  predicate Behind(p: Vector3, v: Vector3, x: Vector3) {
    Dot(Sub(p, v), Sub(x, v)) <= 0.0
  }

  /** The test of `voronoiPoint(Q, p, v, x, y)`: p is in the region of v among v, x, y. */
  predicate InVertexRegion2(p: Vector3, v: Vector3, x: Vector3, y: Vector3) {
    Behind(p, v, x) && Behind(p, v, y)
  }

  /** The test of `voronoiPoint(Q, p, v, x, y, z)`: p is in the region of v among v, x, y, z. */
  predicate InVertexRegion3(p: Vector3, v: Vector3, x: Vector3, y: Vector3, z: Vector3) {
    Behind(p, v, x) && Behind(p, v, z) && Behind(p, v, y)
  }

  /**
    The in-plane normal of edge uv of triangle u, v, w:
    `(v-u) % ((v-u) % (w-u))`.
   */
  function EdgeNormal(u: Vector3, v: Vector3, w: Vector3): Vector3 {
    Cross(Sub(v, u), FaceNormal(u, v, w))
  }

  /** The triangle's edge test: `(p-u) . EdgeNormal(u, v, w) >= 0`. */
  predicate BeyondTriangleEdge(p: Vector3, u: Vector3, v: Vector3, w: Vector3) {
    Dot(Sub(p, u), EdgeNormal(u, v, w)) >= 0.0
  }

  /**
    The tetrahedron's edge test for edge uv between the faces with normals
    n1 and n2: p projects strictly inside the edge and lies behind both
    half-planes `(u-v) % n1` and `(v-u) % n2`.
   */
  predicate InTetraEdgeRegion(p: Vector3, u: Vector3, v: Vector3, n1: Vector3, n2: Vector3) {
    Dot(Sub(p, u), Sub(v, u)) > 0.0 && Dot(Sub(p, v), Sub(u, v)) > 0.0 &&
    Dot(Sub(p, u), Cross(Sub(u, v), n1)) <= 0.0 && Dot(Sub(p, v), Cross(Sub(v, u), n2)) <= 0.0
  }

  /**
    `surfaceTriangle`'s test, also used inline for the tetrahedron's faces:
    p lies on the inner side of the three edge planes `(v-u) % n`,
    `(w-v) % n` and `(u-w) % n` of triangle u, v, w with normal n.
   */
  predicate InFacePrism(p: Vector3, u: Vector3, v: Vector3, w: Vector3, n: Vector3) {
    Dot(Sub(p, u), Cross(Sub(v, u), n)) <= 0.0 &&
    Dot(Sub(p, v), Cross(Sub(w, v), n)) <= 0.0 &&
    Dot(Sub(p, w), Cross(Sub(u, w), n)) <= 0.0
  }

  /** `voronoiPoint` with two neighbours: appends a exactly when p is in its region. */
  method VoronoiPoint3(Q: PointList, p: Vector3, a: Vector3, b: Vector3, c: Vector3) returns (hit: bool)
    modifies Q
    ensures hit <==> InVertexRegion2(p, a, b, c)
    ensures Q.items == if hit then old(Q.items) + [a] else old(Q.items)
  {
    if Dot(Sub(p, a), Sub(b, a)) <= 0.0 && Dot(Sub(p, a), Sub(c, a)) <= 0.0 {
      Q.PushBack(a);
      return true;
    }
    return false;
  }

  /** `voronoiPoint` with three neighbours: appends a exactly when p is in its region. */
  method VoronoiPoint4(Q: PointList, p: Vector3, a: Vector3, b: Vector3, c: Vector3, d: Vector3)
    returns (hit: bool)
    modifies Q
    ensures hit <==> InVertexRegion3(p, a, b, c, d)
    ensures Q.items == if hit then old(Q.items) + [a] else old(Q.items)
  {
    if Dot(Sub(p, a), Sub(b, a)) <= 0.0 && Dot(Sub(p, a), Sub(d, a)) <= 0.0
       && Dot(Sub(p, a), Sub(c, a)) <= 0.0
    {
      Q.PushBack(a);
      return true;
    }
    return false;
  }

  /**
    `surfaceTriangle`: appends a, b, c and answers false when p is in the
    face prism; otherwise answers true and leaves Q alone.
   */
  method SurfaceTriangle(Q: PointList, p: Vector3, a: Vector3, b: Vector3, c: Vector3, normal: Vector3)
    returns (outside: bool)
    modifies Q
    ensures outside <==> !InFacePrism(p, a, b, c, normal)
    ensures Q.items == if outside then old(Q.items) else old(Q.items) + [a, b, c]
  {
    var h1 := Cross(Sub(b, a), normal);
    var h2 := Cross(Sub(c, b), normal);
    var h3 := Cross(Sub(a, c), normal);
    if Dot(Sub(p, a), h1) <= 0.0 && Dot(Sub(p, b), h2) <= 0.0 && Dot(Sub(p, c), h3) <= 0.0 {
      Q.PushBack(a);
      Q.PushBack(b);
      Q.PushBack(c);
      return false;
    }
    return true;
  }

  // ---------------------------------------------------------------------
  // Centroid (`com`)
  // ---------------------------------------------------------------------

  /** The centroid: the one point from which the offsets to a, b and c cancel. */
  function Centroid(a: Vector3, b: Vector3, c: Vector3): (g: Vector3)
    ensures Add(Add(Sub(a, g), Sub(b, g)), Sub(c, g)) == Zero
  {
    Div(Add(Add(a, b), c), 3.0)
  }

  /** The componentwise sum of a list of points. */
  function SumOf(q: seq<Vector3>): Vector3 {
    if q == [] then Zero else Add(SumOf(q[..|q| - 1]), q[|q| - 1])
  }

  /** `com`: sums the three points coordinate by coordinate, then divides by 3. */
  method Com(a: Vector3, b: Vector3, c: Vector3) returns (g: Vector3)
    ensures g == Centroid(a, b, c)
    ensures Scale(3.0, g) == Add(Add(a, b), c)
  {
    var com := Zero;
    var q := [a, b, c];
    for i := 0 to 3
      invariant com == SumOf(q[..i])
    {
      assert q[..i + 1][..i] == q[..i];
      com := com.(x := com.x + q[i].x);
      com := com.(y := com.y + q[i].y);
      com := com.(z := com.z + q[i].z);
    }
    assert q[..3] == q && q[..2] == [a, b] && [a, b][..1] == [a] && [a][..0] == [];
    assert SumOf([a]) == Add(Zero, a) == a;
    assert SumOf([a, b]) == Add(a, b);
    assert com == SumOf(q) == Add(Add(a, b), c);
    g := Div(com, 3.0);
  }

  // ---------------------------------------------------------------------
  // Closest-feature classification (`simplexSolver`)
  // ---------------------------------------------------------------------

  /**
    The feature a branch of `simplexSolver` stands for, by indices into the
    input simplex; it replaces the branch's visualisation colour.
    Unclassified: Q had 0, 1 or more than 4 points and no test was made.
   */
  datatype Region =
    | Unclassified
    | Vertex(v: nat)
    | Edge(e0: nat, e1: nat)
    | Face(f0: nat, f1: nat, f2: nat)
    | Inside

  /** R names distinct points of a simplex of n points (faces only for n = 4). */
  predicate Fits(R: Region, n: nat) {
    match R
    case Unclassified => true
    case Vertex(i) => i < n
    case Edge(i, j) => i < n && j < n && i != j
    case Face(i, j, k) => n == 4 && i < n && j < n && k < n && i != j && j != k && i != k
    case Inside => true
  }

  function ClassifySegment(p: Vector3, a: Vector3, b: Vector3): Region {
    if Behind(p, a, b) then Vertex(0)
    else if Behind(p, b, a) then Vertex(1)
    else Inside
  }

  function ClassifyTriangle(p: Vector3, a: Vector3, b: Vector3, c: Vector3): Region {
    if InVertexRegion2(p, a, b, c) then Vertex(0)
    else if InVertexRegion2(p, b, a, c) then Vertex(1)
    else if InVertexRegion2(p, c, a, b) then Vertex(2)
    else if BeyondTriangleEdge(p, a, b, c) then Edge(0, 1)
    else if BeyondTriangleEdge(p, b, c, a) then Edge(1, 2)
    else if BeyondTriangleEdge(p, c, a, b) then Edge(2, 0)
    else Inside
  }

  function ClassifyTetra(p: Vector3, a: Vector3, b: Vector3, c: Vector3, d: Vector3): Region {
    var nABC, nBAD, nBDC, nDAC := FaceNormal(a, b, c), FaceNormal(a, d, b), FaceNormal(b, d, c), FaceNormal(d, a, c);
    if InVertexRegion3(p, a, b, c, d) then Vertex(0)
    else if InVertexRegion3(p, b, a, c, d) then Vertex(1)
    else if InVertexRegion3(p, c, b, a, d) then Vertex(2)
    else if InVertexRegion3(p, d, b, c, a) then Vertex(3)
    else if InTetraEdgeRegion(p, a, b, nABC, nBAD) then Edge(0, 1)
    else if InTetraEdgeRegion(p, b, c, nABC, nBDC) then Edge(1, 2)
    else if InTetraEdgeRegion(p, b, d, nBDC, nBAD) then Edge(1, 3)
    else if InTetraEdgeRegion(p, a, d, nBAD, nDAC) then Edge(0, 3)
    else if InFacePrism(p, a, b, c, nABC) then Face(0, 1, 2)
    else if InFacePrism(p, b, d, c, nBDC) then Face(1, 3, 2)
    else if InFacePrism(p, a, d, b, nBAD) then Face(0, 3, 1)
    else if InFacePrism(p, d, a, c, nDAC) then Face(3, 0, 2)
    else Inside
  }

  /** The branch of `simplexSolver` taken for query p and simplex s. */
  function Classify(p: Vector3, s: seq<Vector3>): (R: Region)
    ensures Fits(R, |s|)
    ensures R == Unclassified <==> !(2 <= |s| <= 4)
  {
    if |s| == 2 then ClassifySegment(p, s[0], s[1])
    else if |s| == 3 then ClassifyTriangle(p, s[0], s[1], s[2])
    else if |s| == 4 then ClassifyTetra(p, s[0], s[1], s[2], s[3])
    else Unclassified
  }

  /**
    What the branch for R leaves in Q. Sizes 2 and 3 keep the feature's own
    vertices; size 4 keeps [a, b] for every edge, [a, b, c] for face dac and
    nothing for the other three faces.
   */
  function Kept(s: seq<Vector3>, R: Region): seq<Vector3>
    requires Fits(R, |s|)
  {
    match R
    case Unclassified => s
    case Vertex(i) => [s[i]]
    case Edge(i, j) => if |s| == 4 then [s[0], s[1]] else [s[i], s[j]]
    case Face(_, _, _) => if R == Face(3, 0, 2) then [s[0], s[1], s[2]] else []
    case Inside => s
  }

  /** Q after `simplexSolver(p, Q, ...)`. */
  function Reduce(p: Vector3, s: seq<Vector3>): seq<Vector3> {
    Kept(s, Classify(p, s))
  }

  /**
    `simplexSolver(p, Q, dir, color)`: classifies p against Q and rewrites Q
    to what the matching branch keeps. It answers false on every path and
    never writes `dir`; `color` is replaced by the region tag.
   */
  method SimplexSolver(p: Vector3, Q: PointList, dir: VectorRef) returns (r: bool, region: Region)
    modifies Q
    ensures !r
    ensures region == Classify(p, old(Q.items))
    ensures Q.items == Reduce(p, old(Q.items))
    ensures dir.value == old(dir.value)
  {
    if |Q.items| == 1 {
      var a := Q.items[0];
      Q.Clear();
      Q.PushBack(a);
      return false, Unclassified;
    }
    if |Q.items| == 2 {
      region := SolveSegment(p, Q);
      return false, region;
    }
    if |Q.items| == 3 {
      region := SolveTriangle(p, Q);
      return false, region;
    }
    if |Q.items| == 4 {
      region := SolveTetra(p, Q);
      return false, region;
    }
    return false, Unclassified;
  }

  /** The size-2 branch of `simplexSolver`. */
  method SolveSegment(p: Vector3, Q: PointList) returns (region: Region)
    requires |Q.items| == 2
    modifies Q
    ensures region == Classify(p, old(Q.items))
    ensures Q.items == Kept(old(Q.items), region)
  {
    var a, b := Q.items[0], Q.items[1];
    Q.Clear();
    if Dot(Sub(p, a), Sub(b, a)) <= 0.0 {
      Q.PushBack(a);
      return Vertex(0);
    }
    if Dot(Sub(p, b), Sub(a, b)) <= 0.0 {
      Q.PushBack(b);
      return Vertex(1);
    }
    Q.PushBack(a);
    Q.PushBack(b);
    return Inside;
  }

  /** The size-3 branch of `simplexSolver`. */
  method SolveTriangle(p: Vector3, Q: PointList) returns (region: Region)
    requires |Q.items| == 3
    modifies Q
    ensures region == Classify(p, old(Q.items))
    ensures Q.items == Kept(old(Q.items), region)
  {
    var a, b, c := Q.items[0], Q.items[1], Q.items[2];
    Q.Clear();
    var hit := VoronoiPoint3(Q, p, a, b, c);
    if hit { return Vertex(0); }
    hit := VoronoiPoint3(Q, p, b, a, c);
    if hit { return Vertex(1); }
    hit := VoronoiPoint3(Q, p, c, a, b);
    if hit { return Vertex(2); }

    if BeyondTriangleEdge(p, a, b, c) {
      Q.PushBack(a);
      Q.PushBack(b);
      return Edge(0, 1);
    }
    if BeyondTriangleEdge(p, b, c, a) {
      Q.PushBack(b);
      Q.PushBack(c);
      return Edge(1, 2);
    }
    if BeyondTriangleEdge(p, c, a, b) {
      Q.PushBack(c);
      Q.PushBack(a);
      return Edge(2, 0);
    }

    Q.PushBack(a);
    Q.PushBack(b);
    Q.PushBack(c);
    return Inside;
  }

  /** The size-4 branch of `simplexSolver`, with its edge and face branches as written. */
  method SolveTetra(p: Vector3, Q: PointList) returns (region: Region)
    requires |Q.items| == 4
    modifies Q
    ensures region == Classify(p, old(Q.items))
    ensures Q.items == Kept(old(Q.items), region)
  {
    var a, b, c, d := Q.items[0], Q.items[1], Q.items[2], Q.items[3];
    Q.Clear();
    var hit := VoronoiPoint4(Q, p, a, b, c, d);
    if hit { return Vertex(0); }
    hit := VoronoiPoint4(Q, p, b, a, c, d);
    if hit { return Vertex(1); }
    hit := VoronoiPoint4(Q, p, c, b, a, d);
    if hit { return Vertex(2); }
    hit := VoronoiPoint4(Q, p, d, b, c, a);
    if hit { return Vertex(3); }

    var nABC := Cross(Sub(b, a), Sub(c, a));
    var nBAD := Cross(Sub(d, a), Sub(b, a));
    var nBDC := Cross(Sub(d, b), Sub(c, b));
    var nDAC := Cross(Sub(a, d), Sub(c, d));

    if InTetraEdgeRegion(p, a, b, nABC, nBAD) {
      Q.PushBack(a);
      Q.PushBack(b);
      return Edge(0, 1);
    }
    if InTetraEdgeRegion(p, b, c, nABC, nBDC) {
      Q.PushBack(a);
      Q.PushBack(b);
      return Edge(1, 2);
    }
    if InTetraEdgeRegion(p, b, d, nBDC, nBAD) {
      Q.PushBack(a);
      Q.PushBack(b);
      return Edge(1, 3);
    }
    if InTetraEdgeRegion(p, a, d, nBAD, nDAC) {
      Q.PushBack(a);
      Q.PushBack(b);
      return Edge(0, 3);
    }

    if InFacePrism(p, a, b, c, nABC) {
      return Face(0, 1, 2);
    }
    if InFacePrism(p, b, d, c, nBDC) {
      return Face(1, 3, 2);
    }
    if InFacePrism(p, a, d, b, nBAD) {
      return Face(0, 3, 1);
    }
    if InFacePrism(p, d, a, c, nDAC) {
      Q.PushBack(a);
      Q.PushBack(b);
      Q.PushBack(c);
      return Face(3, 0, 2);
    }

    Q.PushBack(a);
    Q.PushBack(b);
    Q.PushBack(c);
    Q.PushBack(d);
    return Inside;
  }
}
