# Voronoi-region simplex solver: a Dafny model

This project models the geometric core of the `demo_Voronoi` viewer (`CGView` in
`uebung6/demo_Voronoi/demo_Voronoi/Voronoi.cpp`). The core is a region
classifier for a simplex `Q` of one to four points. Given a query point `p`,
`simplexSolver` runs a fixed first-match chain of dot- and cross-product sign
tests, one per vertex, edge and face, with the interior as the fallback. The
solver then rewrites `Q` in place to the points kept by the branch of the
first test that passes. That is not always the feature nearest to `p`: the
triangle's edge tests do not check that `p` projects inside the edge, and the
tetrahedron's face tests do not check that `p` lies outside the face. Around
the solver sit:

- the region predicates `voronoiPoint` (two overloads) and `surfaceTriangle`;
- the winding normalisation `correctSimplexOrientation`;
- the centroid helper `com`.

Coordinates are exact reals (`Vectors.Vector3`). `std::vector<Vector3d>&` is the
class `PointLists.PointList`, whose `items` sequence its methods reassign.
`Vector3d&` is `PointLists.VectorRef`.

Modules:

- `Vectors` (vectors.dfy): the vector algebra, with dot (`*`, `.dot`), cross (`%`) and triple products.
- `PointLists` (point_lists.dfy): the mutable containers, with `clear`, `push_back` and `at(i) = v`.
- `Voronoi` (voronoi.dfy):
  - the operations, as imperative methods written branch for branch like the source;
  - the pure functions that specify them: `Orient`, the region predicates, `Centroid`, `Classify`, `Kept` and `Reduce`.
- `VoronoiExamples` (voronoi_examples.dfy): two concrete inputs on which the kept feature is not the nearest one.
- `VoronoiProperties` (voronoi_properties.dfy): lemmas about those functions.
  - The winding's sign and idempotence.
  - The solver's branch is the first match of a separately written testing order (`Order`, `Test`, `FirstHit`).
  - What each branch keeps.
  - What the tests mean geometrically: a chosen vertex is nearest among all convex combinations; a kept segment has its foot point strictly inside; a centroid passes its triangle's face test.

The solver is modelled as written, quirks included:

- every size-4 edge branch keeps `[a, b]`, whichever edge matched;
- only the edges ab, bc, bd and ad are tested;
- of the face branches, abc, bdc and adb leave `Q` empty and dac keeps `[a, b, c]`;
- the face tests make no check that `p` lies outside the face;
- the result is always `false`;
- `dir` is never written.

## Model

| member | source | states |
|---|---|---|
| Voronoi.Swap | uebung6/demo_Voronoi/demo_Voronoi/Voronoi.cpp:126-129 | exchanging two points keeps the length and the multiset of points and changes no other position |
| Voronoi.Orient | uebung6/demo_Voronoi/demo_Voronoi/Voronoi.cpp:115-142 | normalisation keeps the length and the multiset of points, and leaves a simplex of any size other than 3 or 4 unchanged |
| Voronoi.CorrectSimplexOrientation | uebung6/demo_Voronoi/demo_Voronoi/Voronoi.cpp:115-142 | the in-place swaps leave the simplex equal to `Orient` of the old simplex |
| VoronoiProperties.TetraOrientationSwap | uebung6/demo_Voronoi/demo_Voronoi/Voronoi.cpp:120-130 | exchanging b and d negates the sign of (d-a)·((b-a)×(c-a)) |
| VoronoiProperties.TriangleOrientationSwap | uebung6/demo_Voronoi/demo_Voronoi/Voronoi.cpp:132-141 | exchanging a and b negates the sign of (0-a)·((b-a)×(c-a)) |
| VoronoiProperties.OrientFixesSign | uebung6/demo_Voronoi/demo_Voronoi/Voronoi.cpp:120-141 | after normalisation a tetrahedron has (d-a)·((b-a)×(c-a)) ≤ 0 and a triangle has (0-a)·((b-a)×(c-a)) ≥ 0 |
| VoronoiProperties.OrientIdempotent | uebung6/demo_Voronoi/demo_Voronoi/Voronoi.cpp:115-142 | normalising twice equals normalising once |
| Voronoi.VoronoiPoint3 | uebung6/demo_Voronoi/demo_Voronoi/Voronoi.cpp:195-202 | answers true, and appends exactly a, iff (p-a)·(b-a) ≤ 0 and (p-a)·(c-a) ≤ 0; otherwise Q is unchanged |
| Voronoi.VoronoiPoint4 | uebung6/demo_Voronoi/demo_Voronoi/Voronoi.cpp:204-212 | the same, with the three neighbours b, d, c |
| Voronoi.SurfaceTriangle | uebung6/demo_Voronoi/demo_Voronoi/Voronoi.cpp:181-193 | answers false, and appends a, b, c, iff all three edge half-space tests against `normal` are ≤ 0; otherwise answers true and Q is unchanged |
| Voronoi.Centroid | uebung6/demo_Voronoi/demo_Voronoi/Voronoi.cpp:214-227 | the offsets from the result to a, b and c sum to zero |
| Voronoi.Com | uebung6/demo_Voronoi/demo_Voronoi/Voronoi.cpp:214-227 | the coordinate-wise accumulation loop yields `Centroid(a, b, c)`, i.e. three times the result is a + b + c |
| VoronoiProperties.CentroidOfCoincidentPoints | uebung6/demo_Voronoi/demo_Voronoi/Voronoi.cpp:214-227 | com(a, a, a) = a |
| VoronoiProperties.CentroidInFacePrism | uebung6/demo_Voronoi/demo_Voronoi/Voronoi.cpp:181-193 | the centroid of a triangle passes that triangle's face test with the normal (b-a)×(c-a) |
| Voronoi.Classify | uebung6/demo_Voronoi/demo_Voronoi/Voronoi.cpp:231-470 | the region names distinct valid points of the simplex, and no test is made exactly when Q does not have 2 to 4 points |
| Voronoi.SimplexSolver | uebung6/demo_Voronoi/demo_Voronoi/Voronoi.cpp:231-470 | always answers false, leaves `dir` unchanged, reports region `Classify(p, Q)` and leaves Q equal to `Reduce(p, Q)` |
| Voronoi.SolveSegment | uebung6/demo_Voronoi/demo_Voronoi/Voronoi.cpp:243-262 | the size-2 branch reports `Classify` and keeps what `Kept` says for that region |
| Voronoi.SolveTriangle | uebung6/demo_Voronoi/demo_Voronoi/Voronoi.cpp:264-320 | the size-3 branch reports `Classify` and keeps what `Kept` says for that region |
| Voronoi.SolveTetra | uebung6/demo_Voronoi/demo_Voronoi/Voronoi.cpp:322-467 | the size-4 branch reports `Classify` and keeps what `Kept` says for that region |
| VoronoiProperties.FirstHit | uebung6/demo_Voronoi/demo_Voronoi/Voronoi.cpp:271-466 | the result is the first position in a testing order whose test passes: that test passes and every earlier one fails |
| VoronoiProperties.ClassifyIsFirstMatch | uebung6/demo_Voronoi/demo_Voronoi/Voronoi.cpp:243-466 | the solver's branch is the first region whose test passes, in the order vertices a, b, c (, d), then edges ab, bc, ca (or ab, bc, bd, ad), then faces abc, bdc, adb, dac, then the interior |
| VoronoiProperties.ClassifyInOrder | uebung6/demo_Voronoi/demo_Voronoi/Voronoi.cpp:243-466 | the reported region is one of those tested for that size |
| VoronoiProperties.ReduceDrawsFromInput | uebung6/demo_Voronoi/demo_Voronoi/Voronoi.cpp:231-470 | Q never grows and keeps only points it held, each at most as often as before; a Q of 0, 1 or at least 5 points is left unchanged |
| VoronoiProperties.KeptDrawsFromInput | uebung6/demo_Voronoi/demo_Voronoi/Voronoi.cpp:243-466 | for every region valid for 2 to 4 points, what the branch keeps is a sub-multiset of the input |
| VoronoiProperties.QueryAtFirstVertex | uebung6/demo_Voronoi/demo_Voronoi/Voronoi.cpp:235-341 | a query at the first point of Q picks vertex 0 and reduces Q to that point |
| VoronoiProperties.SmallSimplexKeepsFeature | uebung6/demo_Voronoi/demo_Voronoi/Voronoi.cpp:243-320 | segments and triangles keep the chosen vertex; triangle edges are ab, bc or ca and keep those two points in that order; the interior keeps all points; no face is reported |
| VoronoiProperties.TetraEdgeKeepsFirstTwo | uebung6/demo_Voronoi/demo_Voronoi/Voronoi.cpp:357-391 | every size-4 edge branch leaves Q = [a, b] |
| VoronoiProperties.TetraFaceKeeps | uebung6/demo_Voronoi/demo_Voronoi/Voronoi.cpp:401-459 | face dac leaves Q = [a, b, c] and the other three face branches leave Q empty |
| VoronoiProperties.TetraInsideKeepsAll | uebung6/demo_Voronoi/demo_Voronoi/Voronoi.cpp:461-466 | when no test matches, all four points are kept |
| VoronoiProperties.ReduceStableOnSegments | uebung6/demo_Voronoi/demo_Voronoi/Voronoi.cpp:235-262 | running the solver again on a point or a segment it produced changes nothing |
| VoronoiProperties.VertexBranchFacesAll | uebung6/demo_Voronoi/demo_Voronoi/Voronoi.cpp:195-212 | when vertex v is picked, (p-v)·(x-v) ≤ 0 for every point x of Q |
| VoronoiProperties.VertexBranchIsNearest | uebung6/demo_Voronoi/demo_Voronoi/Voronoi.cpp:195-212 | a picked vertex is at least as close to p as every convex combination of Q's points |
| VoronoiProperties.SegmentInteriorFoot | uebung6/demo_Voronoi/demo_Voronoi/Voronoi.cpp:243-261 | when a segment is kept whole, it is not degenerate and the foot of the perpendicular from p lies strictly between its endpoints |
| VoronoiExamples.EdgeKeptIsNotNearest | uebung6/demo_Voronoi/demo_Voronoi/Voronoi.cpp:264-311 | for a=(0,0,0), b=(1,0,0), c=(3,1,0) and p=(1.5,-0.1,0), no vertex test passes and the test of edge ab does, so Q becomes [a, b]; yet a point of bc is at squared distance 0.098 from p and every point of ab is farther away |
| VoronoiExamples.InteriorPointEmptiesTetra | uebung6/demo_Voronoi/demo_Voronoi/Voronoi.cpp:322-466 | for the corner tetrahedron 0, e1, e2, e3 and the interior point (1/4, 1/4, 1/4), every vertex and edge test fails and face abc's test passes, so Q is emptied and the interior branch is not reached |
| VoronoiProperties.TriangleEdgeNormalOutward | uebung6/demo_Voronoi/demo_Voronoi/Voronoi.cpp:288-311 | the triangle's edge normal h = (b-a)×n lies in the plane, is orthogonal to the edge and points away from the third corner |

## Left out

- Qt windowing, menus, mouse, wheel and key events, and `main` are UI plumbing and are not modelled. This includes the key that cycles `VoronoiCellSize`.
- OpenGL rendering is not modelled: `initializeGL`, `drawBoundingBox`, `paintGL`, `resizeGL`, `worldCoord`. These are foreign GL/GLU calls. The face normals `paintGL` computes are used only for drawing.
- `randomSimplex` and the random point cloud are not modelled, because they depend on `rand()`. `correctSimplexOrientation` is modelled directly, on any simplex.
- `mouseToTrackball` and `trackball` are not modelled. They are floating-point `sqrt` and quaternion code on types the model does not include.
- Floating-point rounding is not modelled. All coordinates are exact reals. So the sign tests are exact, and `com`'s division by 3 has no rounding.
- `Vector3d` comes from a header that is not part of this model. The model assumes:
  - `*` and `.dot` are the dot product;
  - `%` is the right-handed cross product;
  - `+`, `-` and `/` work componentwise;
  - a default-constructed vector is the origin.
- SimplexSolver: the `color` output is replaced by the `Region` tag, because it only picks visualisation colours. Two consequences:
  - the colour values themselves are not modelled;
  - the model does not show which paths leave `color` unwritten: a Q of one point and the size-4 interior branch (Voronoi.cpp:461-466) do not write it, while a Q of 0 or at least 5 points writes one.
- SimplexSolver: `dir` is a `VectorRef` outside the method's `modifies` clause. So "never written" holds by construction, and the contract restates it.
- A GJK driver loop and a support-point query do not appear in the modelled file, so they are not modelled.
- The size-4 edge and face branches are not repaired to keep the geometrically expected vertices. They keep what the code keeps.
- Sub-sequence is stated as sub-multiset. The triangle's edge ca keeps `[c, a]`, which is not an order-preserving sub-sequence of `[a, b, c]`. So `ReduceDrawsFromInput` states what holds for every branch: the result never grows, and it holds only input points, each at most as often as before.
- SimplexSolver: the chain of tests is modelled as written, and it does not always keep the feature nearest to `p`. Nearness is proved only for the vertex branches (`VertexBranchIsNearest`), and for the size-2 edge only in the sense that its foot point lies inside it (`SegmentInteriorFoot`). Two inputs show the gap:
  - the triangle a=(0,0,0), b=(1,0,0), c=(3,1,0) with p=(1.5,-0.1,0): the edge test for ab has no projection check, so Q becomes [a, b] at squared distance 0.26, while edge bc comes within 0.098 of p, at parameter 0.18 (`EdgeKeptIsNotNearest`);
  - the tetrahedron a=0, b=e1, c=e2, d=e3 with p=(1/4, 1/4, 1/4): the face test of abc passes, so Q is emptied. The same happens for every point strictly inside, so the branch at Voronoi.cpp:461 that keeps all four points is not reached for interior points (`InteriorPointEmptiesTetra` proves it for this one).
- Where the code and its comments differ, the model follows the code:
  - the comment at Voronoi.cpp:286 lists the edges as V_ab, V_ca, V_cb, while the code tests ab, bc, ca in that order;
  - the tetrahedron's edge branch tests bd instead of cd;
  - only four of the six edges are tested;
  - the face tests have no outward-side check;
  - `surfaceTriangle` is defined but the size-4 branch does its tests inline.
