# polyhedra-sections: edges from face windings, and plane sections

This project models the combinatorial core of polyhedra-sections, a viewer
that draws convex polyhedra and the polygon in which a movable plane cuts
them. Two pieces are modelled.

- `PolyhedronData.computeEdges` (polyhedra-data.js). It walks the cyclic
  vertex list of every face, marks each directed step in a table keyed
  `a*n+b`, and pushes every undirected edge once, on its first occurrence.
  A step that repeats the direction of the first step along its edge
  throws "Bad face orientation"; repeats of the reverse step are accepted. The
  six built-in solids are also modelled: p4, p6, p8, p12, p20 and pg20.
- The mesh builder and the section algorithm (gutil.js):
  - `GeometricModel` keeps a pool of sphere handles and a pool of cylinder
    handles, plus a triangle buffer for faces.
  - `Polyhedron` fills a GeometricModel from a PolyhedronData.
  - `PolyhedronSection.update` computes the section:
    - it measures every vertex against the plane and nudges all measures
      by a small epsilon;
    - it puts one point on every edge whose two ends have strictly opposite
      signs;
    - it joins the two points of every face that is crossed exactly twice.

The walk of computeEdges is modelled twice.

- `PolyhedraData.ScanAll` is a fold over the walk's steps, called darts.
- `EdgeScan` says declaratively what that fold computes. The edge list is
  the first dart along each undirected edge (`FirstEdges`). The walk fails
  exactly when a dart repeats the direction of the first dart along its
  edge.

The section is modelled the same way. `Sections.CrossAll`, `Collect` and
`SectionEdges` are functions. `PolyhedronSection.Update` runs the source's
loops and is proved to produce exactly what they describe.

The source guards the nudge with `if(0.0 in coords)`. In JavaScript, `in`
asks whether the array has an element at index 0, not whether it holds the
value 0. So the code nudges every non-empty polyhedron, although the nudge
is evidently meant only for a vertex lying exactly on the plane. The model
follows the code (`Sections.HasIndexZero`).

Two lemmas show what that changes:

- `Sections.NudgeWithoutZeroDropsCrossing`: the nudge can remove a crossing
  even though no vertex is on the plane.
- `Sections.NudgeCreatesCrossing`: vertices that all lie just below the
  plane can still produce a crossing.

One would expect all measures on one side to give an empty section.
`Sections.OneSideEmpty` proves this when every measure is strictly positive,
or when every measure is below -1e-8.

## Model

| member | source | states |
|---|---|---|
| PolyhedraData.ScanFace | polyhedra-data.js:11-23 | The inner loop over one face. Starting from the state the walk reached before the face, it ends in the state `ScanAll` gives after the face's darts: table, edges and failure flag. Darts go last to first, then in order. |
| PolyhedraData.ScanStep | polyhedra-data.js:14-22 | One step of the walk. A walk that has thrown stays as it is. Otherwise the step throws exactly when the table holds something other than -1 under the key a*n+b. The edge list grows by the one entry [a, b] exactly when the key is absent, and is unchanged otherwise. |
| PolyhedraData.PolyhedronData.constructor | polyhedra-data.js:4 | `new PolyhedronData()` followed by the assignments of `vertices` and `faces`: the given lists and no edges yet. |
| PolyhedraData.ScanAbsorbs | polyhedra-data.js:20 | Once the walk has thrown, no later dart changes its state, so stopping at the throw is the same as continuing. |
| PolyhedraData.PolyhedronData.ComputeEdges | polyhedra-data.js:7-25 | `edges` becomes the edge list of the whole walk. The result is Fail("Bad face orientation") exactly when the walk fails, and Pass otherwise. The new `edges` depends only on the vertex count and the faces, so calling it twice gives the same list. |
| EdgeScan.FirstAlongFirst | polyhedra-data.js:15 | `FirstAlong` finds no dart exactly when no dart runs along {x, y}. Otherwise it returns the dart at the lowest such index. |
| EdgeScan.KeyInjective | polyhedra-data.js:14-17 | For vertices below n, the key a*n+b determines a and b, so two directed pairs never share a slot. |
| EdgeScan.ScanAgrees | polyhedra-data.js:15-18 | If every dart is in range and the walk does not fail, every table entry is 1 or -1. Under each key, the table holds none, 1 or -1 as the first dart along that edge dictates. The edge list is `FirstEdges`: [to, from] of the first dart along each edge, in walk order. |
| EdgeScan.ScanFailsIff | polyhedra-data.js:19-21 | With darts in range, the walk throws if and only if some dart, not a self-loop, repeats the direction of the first dart along its edge. |
| EdgeScan.ReversedRepeatAccepted | polyhedra-data.js:19-20 | Concrete example. After 0→1, the opposite dart 1→0 may repeat without a throw, but a second 0→1 throws. |
| EdgeScan.DistinctNeverFails | polyhedra-data.js:11-23 | If no directed dart occurs twice, the walk never throws and yields `FirstEdges`. |
| EdgeScan.FirstEdgesSound | polyhedra-data.js:18 | Every entry [a, b] of the edge list is the first dart along its edge, stored as [to, from]. |
| EdgeScan.FirstEdgesUnique | polyhedra-data.js:15-18 | No undirected edge appears twice in the edge list. |
| EdgeScan.FirstEdgesCover | polyhedra-data.js:11-23 | Every dart of every face, including the wrap from the last vertex to the first, runs along some entry of the edge list. |
| EdgeScan.DartsInRange | polyhedra-data.js:11-13 | If every vertex index of every face is below n, every dart of the walk, including the wrap from the last vertex to the first, is in range. |
| EdgeScan.FirstEdgesInRange | polyhedra-data.js:18 | For darts in range, both indices of every pushed entry [a, b] are below n. |
| EdgeScan.ClosedSurfaceCount | polyhedra-data.js:11-23 | Assume the darts are pairwise distinct, contain no self-loop, and contain every dart's reverse. Then the edge list has exactly half as many entries as there are darts. |
| FaceTables.CertifiedTable | polyhedra-data.js:7-25 | For a table whose darts pass those checks, computeEdges does not throw. It yields `FirstEdges` with one edge per two darts. |
| FaceTables.P4Edges | polyhedra-data.js:90-91 | p4: no throw; 6 edges = V + F - 2. |
| FaceTables.P6Edges | polyhedra-data.js:101-102 | p6: no throw; 12 edges = V + F - 2. |
| FaceTables.P8Edges | polyhedra-data.js:111-112 | p8: no throw; 12 edges = V + F - 2. |
| FaceTables.P12Edges | polyhedra-data.js:127-132 | p12: no throw; 30 edges = V + F - 2. |
| FaceTables.P20Edges | polyhedra-data.js:144-150 | p20: no throw; 30 edges = V + F - 2. |
| FaceTables.PG20Edges | polyhedra-data.js:163-164 | pg20: no throw; 30 edges = V + F - 2. |
| FaceTables.P12FacesShape | polyhedra-data.js:127-131 | Every face of p12 has at least three vertices, all below 20. The same lemma exists for every table. |
| FaceTables.MakeP12 | polyhedra-data.js:116-134 | Builds p12 from the vertices (f, g = 1/f) and the faces, then computes its edges. The edges are `FirstEdges` of its darts, 30 of them. Every table has its own Make method. |
| Geometry.LerpAffine | gutil.js:249 | The plane measure n.p + d of a Lerp point is the same interpolation of the two end measures. |
| GeometricModels.GrowPool | gutil.js:164-169 | The growing loop of addVertex and addEdge. The pool becomes max(length, i+1) long and keeps its old handles. Each new slot j holds a fresh instance numbered j. |
| GeometricModels.TrimPool | gutil.js:126-129 | The trimming loop of endUpdate. It keeps the first max(min(used, length), 1) handles, so slot 0 is never disposed of. It disposes of the rest, from the last one down. |
| GeometricModels.CoordinatesAt | gutil.js:190 | The positions addFace appends are 3m numbers: x, y, z of each point, in order. |
| GeometricModels.FanTriangles | gutil.js:191 | The indices addFace appends for m points at offset k form m-2 triangles (k, k+t+1, k+t+2). All indices lie in [k, k+m). |
| GeometricModels.PushCoordinates | gutil.js:190 | The loop appends x, y, z of every point in order: the result is the old positions followed by `Coordinates(pts)`, whose layout `CoordinatesAt` states. |
| GeometricModels.PushFan | gutil.js:191 | The loop appends the fan of triangles of an m-point polygon at offset k: the result is the old indices followed by `Fan(k, m)`, whose triangles `FanTriangles` states. |
| GeometricModels.WithFaceValid | gutil.js:186-194 | Appending a face keeps the buffer consistent: 3·vCount positions, a whole number of triangles, and every index below vCount. |
| GeometricModels.GeometricModel.constructor | gutil.js:88-115 | Each pool holds only its hidden prototype, nothing is used, and there is no face buffer yet. |
| GeometricModels.GeometricModel.BeginUpdate | gutil.js:118-122 | Both use counters become 0, and the face buffer becomes empty. |
| GeometricModels.GeometricModel.AddVertex | gutil.js:162-174 | Returns the old counter i and increments it. The pool grows to max(length, i+1). Slot i becomes a sphere of radius r at pos. The other slots keep their handles or are new instances. |
| GeometricModels.GeometricModel.AddEdge | gutil.js:175-185 | The same as AddVertex, with slot i a cylinder from pa to pb. |
| GeometricModels.GeometricModel.AddFace | gutil.js:186-194 | The buffer gains the points' coordinates and the fan triangles, with vCount + m and fCount + 1. |
| GeometricModels.GeometricModel.EndUpdate | gutil.js:124-161 | Each prototype is visible iff used. Each pool is cut to its first max(used, 1) handles, and the rest are disposed of, last first. The face mesh is shown iff some face was added. The instance-count check always passes. |
| Polyhedra.AddVertices | gutil.js:204 | After the loop, one sphere of the given radius per point, in order, and the counter equals the number of points. |
| Polyhedra.AddEdges | gutil.js:205 | After the loop, one cylinder of the given radius per pair of end points, in order, and the counter equals the number of edges. |
| Polyhedra.AddFaces | gutil.js:206 | After the loop, the face buffer is `AllFaces`: every face's polygon appended in order. |
| Polyhedra.AllFacesShape | gutil.js:206 | After adding every face, the buffer is consistent. It holds one polygon per face and one point per corner. |
| Polyhedra.Polyhedron.constructor | gutil.js:198-208 | Vertex i is a sphere of radius 0.03 at twice data vertex i. Edge k is a cylinder of radius 0.02 between the scaled ends of data edge k. The face buffer holds every face's polygon. Pools are max(count, 1) long, and visibility follows use. The face mesh is shown iff the data has a face, and nothing is disposed of. |
| Polyhedra.FromData | gutil.js:197-209 | Building a Polyhedron from data whose edges computeEdges filled needs no further check. The edges always name vertices, so the constructor's demand holds. Every vertex becomes a sphere of radius 0.03 at its scaled position, every edge a cylinder of radius 0.02 between its scaled ends, and the face buffer holds every face's polygon. |
| Polyhedra.CubeModel | polyhedra-data.js:95-104 | The cube p6 drawn as a Polyhedron: 8 spheres and 12 cylinders. |
| Sections.Nudge | gutil.js:234-241 | In place, the array becomes `Perturbed` of its old contents. When it has an element at index 0, every entry is raised by `Eps`; otherwise nothing changes. |
| Sections.Measures | gutil.js:232-241 | A new array holding the plane measure of every point, then nudged: `Perturbed(Distances(plane, pts))`. |
| Sections.Eps | gutil.js:235-239 | The nudge is positive and at most 1e-8. It is at most half of every positive measure, and it equals 1e-8 or half of some positive measure. |
| Sections.PerturbedSigns | gutil.js:234-241 | The nudge raises a measure by at most 1e-8 and keeps positive measures positive. Zeros become positive. Measures below -1e-8 stay negative. A positive measure grows by at most half. |
| Sections.NudgeWithoutZeroDropsCrossing | gutil.js:234 | Example: measures -1e-9 and 1 (no zero) have opposite signs, but after the nudge the edge is no longer crossed. |
| Sections.NudgeCreatesCrossing | gutil.js:234-241 | Example: measures -2e-8 and -5e-9 are both negative, but after the nudge the edge is crossed. |
| Sections.CrossParamInside | gutil.js:246-249 | For opposite signs, t = -co_a/(co_b-co_a) lies strictly between 0 and 1. The measures interpolated at t give 0. |
| Sections.CrossPointOnPlane | gutil.js:233-249 | Every crossing point has plane measure equal to minus the nudge, so it lies between -1e-8 and 0. |
| Sections.SectionPointsOnPlane | gutil.js:244-255 | Every point of the section lies on the nudged plane. |
| Sections.CrossAllSpec | gutil.js:244-255 | There is one point per crossed edge, in edge order, each at its edge's crossing. tb is symmetric and its values index the points. tb has a key for (a, b) iff some crossed edge joins a and b. |
| Sections.CrossAllIndex | gutil.js:250-251 | When no edge is listed twice, tb sends both orders of the k-th crossed edge to k. |
| Sections.SectionEdgesBound | gutil.js:257-273 | Both ends of every section edge index a crossing point. |
| Sections.CollectCounts | gutil.js:258-267 | A face's segment has one entry per boundary step that changes side. |
| Sections.FaceChangesEven | gutil.js:258-267 | A closed face walk with no vertex on the plane changes side an even number of times. |
| Sections.FaceSegmentEven | gutil.js:257-267 | If every step of a face lies along a listed edge and no vertex is on the plane, the segment's length is the number of side changes, which is even. |
| Sections.SectionFaceEven | gutil.js:257-276 | With the edges computeEdges yields, a face with no vertex on the nudged plane collects an even number of crossings. So a single crossing never reaches the logging branch. |
| Sections.OneSideEmpty | gutil.js:244-256 | If all measures are positive, or all are below -1e-8, there are no points and no segments. |
| Sections.FaceLoop | gutil.js:258-267 | The loop over one face's boundary, starting with the step from the last vertex to the first. It collects tb's entries in boundary order. |
| Sections.PolyhedronSection.constructor | gutil.js:222-225 | A fresh model: each pool holds only its prototype, nothing used, both prototypes hidden, no face buffer, nothing shown or disposed of, face mesh visible. `pts` and `edges` are empty. |
| Sections.PolyhedronSection.AddCrossings | gutil.js:244-256 | The loop over the edges. It builds exactly `CrossAll`: a sphere of radius 0.07 per point, and `pts` as the points' (x, z). |
| Sections.PolyhedronSection.AddSegments | gutil.js:257-277 | The loop over the faces. It builds exactly `SectionEdges`, with a cylinder of radius 0.05 per segment. |
| Sections.PolyhedronSection.Fill | gutil.js:232-277 | The body between beginUpdate and endUpdate. The points are `CrossAll` of the nudged measures, and the segments are `SectionEdges`. Each pool keeps its old handles beyond the slots it reused. |
| Sections.PolyhedronSection.Update | gutil.js:226-279 | `pts` is the projection of the crossings of the nudged plane, and `edges` is one pair per face crossed exactly twice. The model keeps the same GeometricModel and shows the points and segments. It hides the face mesh and leaves the shown face data alone. Each pool is cut to max(count, 1) handles. The handles left over from the previous call are disposed of, last first. With no crossing, only the prototype handle of each pool is kept. |
| Polyhedra.DrawAll | gutil.js:204-206 | After the vertex, edge and face loops, handle i is the sphere at point i and handle k the cylinder between ends k. The face buffer holds all faces' polygons. Slots past the new handles still hold the old ones. |
| Polyhedra.DrawFresh | gutil.js:202-207 | A whole update of a freshly built model keeps exactly max(count, 1) handles per pool and disposes of nothing. The face mesh is shown iff some face was added. |
| GeometricModels.SpheresPrefix | gutil.js:127-129 | Cutting the vertex pool after its placed spheres keeps every sphere where it was. |
| GeometricModels.CylindersPrefix | gutil.js:132-134 | Cutting the edge pool after its placed cylinders keeps every cylinder where it was. |
| GeometricModels.DisposalNone | gutil.js:126-129 | Cutting a pool at its own length disposes of no handle. |
| GeometricModels.ReusedDisposal | gutil.js:126-129 | After n handles were reused, endUpdate disposes of exactly the old handles from slot max(n, 1) on, last first. It disposes of none when all of them were reused. |

## Left out

- The orientation queries and `getFaceMatrix` (polyhedra-data.js:27-85) are left out. They are quaternion and matrix code in a rendering library that is not part of this model.
- `foobar` (polyhedra-data.js:168-196) is left out. It is an unused search over floating-point distances.
- The vertex coordinates of p12, p20 and pg20 use f = (sqrt(5) - 1)/2. The model takes f as a parameter, and every member that uses it (the vertex lists and the Make methods of the three solids) requires f to be the positive root of f·f + f = 1 (`FaceTables.IsGoldenF`). It has no square root.
- All arithmetic is on exact reals and unbounded integers. Floating-point rounding in the measures, the nudge and the interpolation is not modelled.
- Babylon meshes are modelled as values:
  - A handle records its pool slot and where it was placed.
  - Disposal is a log of disposed handles.
  - Materials, names, parents and the pivot are left out.
- Polyhedron and PolyhedronSection extend GeometricModel in the source. Here each owns one, in its field `model`.
- `placeCylinder` (gutil.js:45-59) is left out. A cylinder handle records its two end points and its radius instead of the rotation and scaling that code computes. This also drops the rotation, including its identity case for an edge pointing along +y (gutil.js:54-57).
- `showWorldAxis` and `HSVtoRGB` (gutil.js:4-83) are left out. They are rendering helpers.
- The instance-count check in endUpdate scans the scene for meshes named "<name>-dot-inst". The model counts the live instances of its own vertex pool instead, so the check always passes. Meshes created elsewhere under the same name are not modelled.
- The world positions in update come from Babylon's world matrices. `Sections.PolyhedronSection.Update` takes the pivot's transformation as a parameter `toWorld` and applies it to each vertex handle's center. The plane is given as its normal and offset, with `dotCoordinate` as n·p + d.
- The console logging for a face with a crossing count other than 0 or 2 is left out. Such a face adds nothing, as in the source.
- `findLoops` (gutil.js:211-219) and the commented-out VertexDataBuilder are left out. The first is unfinished and the second is unused.
- 3dsections.js is not part of this model. It holds the page, scene, camera, sliders and canvas drawing.
- A convex polyhedron is expected to give one simple closed polygon. That needs geometric convexity, which the model does not have. The model proves the combinatorial part instead: each face contributes an even number of crossings (`Sections.SectionFaceEven`).
