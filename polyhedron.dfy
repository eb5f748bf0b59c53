/**
 * Polyhedron (gutil.js): a GeometricModel that draws a PolyhedronData at
 * twice its size, with a small sphere per vertex, a thin cylinder per
 * entry of `edges` and the polygons of `faces`.
 *
 * The class extends GeometricModel in the source; here it owns one in
 * the field `model`.
 */
module Polyhedra {
  import opened Wrappers
  import opened Geometry
  import opened PolyhedraData
  import opened GeometricModels
  import opened EdgeScan
  import opened FaceTables

  const ScaleFactor: real := 2.0
  const VertexRadius: real := 0.03
  const EdgeRadius: real := 0.02

  /** `vertices.map(v => v.scale(s))`. */
  function Scaled(vs: seq<Vec3>, s: real): (r: seq<Vec3>)
    ensures |r| == |vs| && forall i | 0 <= i < |vs| :: r[i] == Scale(vs[i], s)
  {
    seq(|vs|, i requires 0 <= i < |vs| => Scale(vs[i], s))
  }

  /** The corner points of face f, looked up in pts. */
  function FacePoints(pts: seq<Vec3>, f: Face): (r: seq<Vec3>)
    requires forall j | 0 <= j < |f| :: f[j] < |pts|
    ensures |r| == |f| && forall j | 0 <= j < |f| :: r[j] == pts[f[j]]
  {
    seq(|f|, j requires 0 <= j < |f| => pts[f[j]])
  }

  /** Every vertex index of every face is below n. */
  predicate FacesInRange(faces: seq<Face>, n: nat)
  {
    forall i, j | 0 <= i < |faces| && 0 <= j < |faces[i]| :: faces[i][j] < n
  }

  /** The face buffer after addFace on every face, starting from fb. */
  function AllFaces(fb: FaceBuffer, pts: seq<Vec3>, faces: seq<Face>): FaceBuffer
    requires FacesInRange(faces, |pts|)
  {
    if faces == [] then fb
    else WithFace(AllFaces(fb, pts, faces[..|faces| - 1]), FacePoints(pts, faces[|faces| - 1]))
  }

  /** The total number of corners of the faces. */
  function CornerCount(faces: seq<Face>): nat
  {
    if faces == [] then 0 else CornerCount(faces[..|faces| - 1]) + |faces[|faces| - 1]|
  }

  /**
   * The face data of a Polyhedron: consistent, one polygon per face, one
   * point per corner, all coordinates in face order.
   */
  lemma {:induction false} AllFacesShape(pts: seq<Vec3>, faces: seq<Face>)
    requires FacesInRange(faces, |pts|)
    ensures var fb := AllFaces(EmptyBuffer, pts, faces);
      BufferValid(fb) && fb.fCount == |faces| && fb.vCount == CornerCount(faces)
  {
    if faces != [] {
      var init := faces[..|faces| - 1];
      assert FacesInRange(init, |pts|) by {
        forall i, j | 0 <= i < |init| && 0 <= j < |init[i]| ensures init[i][j] < |pts| {
          assert init[i] == faces[i];
        }
      }
      AllFacesShape(pts, init);
      WithFaceValid(AllFaces(EmptyBuffer, pts, init), FacePoints(pts, faces[|faces| - 1]));
    }
  }

  /** The end points of every entry [a, b] of edges, looked up in pts. */
  function EdgeEnds(pts: seq<Vec3>, edges: seq<Edge>): (r: seq<(Vec3, Vec3)>)
    requires forall k | 0 <= k < |edges| :: edges[k].a < |pts| && edges[k].b < |pts|
    ensures |r| == |edges| && forall k | 0 <= k < |edges| :: r[k] == (pts[edges[k].a], pts[edges[k].b])
  {
    seq(|edges|, k requires 0 <= k < |edges| => (pts[edges[k].a], pts[edges[k].b]))
  }

  /** `pts.forEach(v => this.addVertex(v, r))` */
  method AddVertices(m: GeometricModel, pts: seq<Vec3>, r: real)
    requires m.Valid() && m.usedVertices == 0
    modifies m`vertices, m`usedVertices
    ensures m.Valid() && m.usedVertices == |pts| && m.SpheresAt(pts, r)
    ensures ReusedFrom(m.vertices, old(m.vertices), |pts|)
  {
    ghost var before := m.vertices;
    var i := 0;
    while i < |pts|
      invariant 0 <= i <= |pts|
      invariant m.Valid() && m.usedVertices == i && m.SpheresAt(pts[..i], r)
      invariant ReusedFrom(m.vertices, before, i)
    {
      var _ := m.AddVertex(pts[i], r);
      i := i + 1;
    }
    assert pts[..i] == pts;
  }

  /** `edges.forEach(([a, b]) => this.addEdge(pts[a], pts[b], r))`, given the end points. */
  method AddEdges(m: GeometricModel, ends: seq<(Vec3, Vec3)>, r: real)
    requires m.Valid() && m.usedEdges == 0
    modifies m`edges, m`usedEdges
    ensures m.Valid() && m.usedEdges == |ends| && m.CylindersAt(ends, r)
    ensures ReusedFrom(m.edges, old(m.edges), |ends|)
  {
    ghost var before := m.edges;
    var k := 0;
    while k < |ends|
      invariant 0 <= k <= |ends|
      invariant m.Valid() && m.usedEdges == k && m.CylindersAt(ends[..k], r)
      invariant ReusedFrom(m.edges, before, k)
    {
      var _ := m.AddEdge(ends[k].0, ends[k].1, r);
      k := k + 1;
    }
    assert ends[..k] == ends;
  }

  /** `faces.forEach(f => this.addFace(f.map(i => pts[i])))` */
  method AddFaces(m: GeometricModel, pts: seq<Vec3>, faces: seq<Face>)
    requires m.Valid() && m.faces == Some(EmptyBuffer)
    requires FacesInRange(faces, |pts|)
    modifies m`faces
    ensures m.Valid() && m.faces == Some(AllFaces(EmptyBuffer, pts, faces))
  {
    var fi := 0;
    while fi < |faces|
      invariant 0 <= fi <= |faces|
      invariant FacesInRange(faces[..fi], |pts|)
      invariant m.Valid() && m.faces == Some(AllFaces(EmptyBuffer, pts, faces[..fi]))
    {
      assert faces[..fi + 1][..fi] == faces[..fi];
      m.AddFace(FacePoints(pts, faces[fi]));
      fi := fi + 1;
    }
    assert faces[..fi] == faces;
  }

  /**
   * The addition of all vertices, edges and faces between beginUpdate
   * and endUpdate, as the Polyhedron constructor does it.
   */
  method DrawAll(m: GeometricModel, pts: seq<Vec3>, ends: seq<(Vec3, Vec3)>, faces: seq<Face>)
    requires m.Valid() && m.usedVertices == 0 && m.usedEdges == 0 && m.faces == Some(EmptyBuffer)
    requires FacesInRange(faces, |pts|)
    modifies m`vertices, m`usedVertices, m`edges, m`usedEdges, m`faces
    ensures m.Valid() && m.usedVertices == |pts| && m.SpheresAt(pts, VertexRadius)
    ensures m.usedEdges == |ends| && m.CylindersAt(ends, EdgeRadius)
    ensures m.faces == Some(AllFaces(EmptyBuffer, pts, faces)) && m.faces.value.fCount == |faces|
    ensures ReusedFrom(m.vertices, old(m.vertices), |pts|) && ReusedFrom(m.edges, old(m.edges), |ends|)
  {
    AddVertices(m, pts, VertexRadius);
    AddEdges(m, ends, EdgeRadius);
    AddFaces(m, pts, faces);
    AllFacesShape(pts, faces);
  }

  /**
   * One whole update of a model fresh from its constructor: beginUpdate,
   * all vertices, edges and faces, endUpdate. The pools keep exactly the
   * placed handles (at least one), nothing is disposed of, and the face
   * buffer is shown iff it holds a face.
   */
  method DrawFresh(m: GeometricModel, pts: seq<Vec3>, ends: seq<(Vec3, Vec3)>, faces: seq<Face>)
    requires m.Valid() && m.vertices == [Handle(0, Unplaced)] && m.edges == [Handle(0, Unplaced)]
    requires m.shown.None? && m.disposed == []
    requires FacesInRange(faces, |pts|)
    modifies m
    ensures m.Valid()
    ensures m.usedVertices == |pts| && |m.vertices| == Max(|pts|, 1) && m.SpheresAt(pts, VertexRadius)
    ensures m.usedEdges == |ends| && |m.edges| == Max(|ends|, 1) && m.CylindersAt(ends, EdgeRadius)
    ensures m.faces == Some(AllFaces(EmptyBuffer, pts, faces))
    ensures m.dotVisible == (|pts| != 0) && m.edgeVisible == (|ends| != 0) && m.facesVisible == (|faces| != 0)
    ensures m.shown == (if |faces| == 0 then None else m.faces)
    ensures m.disposed == []
  {
    m.BeginUpdate();
    DrawAll(m, pts, ends, faces);
    ghost var vs, es := m.vertices, m.edges;
    ReusedDisposal(vs, [Handle(0, Unplaced)], |pts|);
    ReusedDisposal(es, [Handle(0, Unplaced)], |ends|);
    DisposalNone([Handle(0, Unplaced)]);
    var _ := m.EndUpdate();
    SpheresPrefix(vs, Max(|pts|, 1), pts, VertexRadius);
    CylindersPrefix(es, Max(|ends|, 1), ends, EdgeRadius);
  }

  class Polyhedron {
    var model: GeometricModel
    var data: PolyhedronData
    var scaleFactor: real

    /**
     * The constructor: one sphere of radius 0.03 per vertex, scaled by 2;
     * one cylinder of radius 0.02 per entry [a, b] of `edges`, from vertex a
     * to vertex b; the polygons of all faces.
     */
    constructor (data: PolyhedronData)
      requires forall k | 0 <= k < |data.edges| :: data.edges[k].a < |data.vertices| && data.edges[k].b < |data.vertices|
      requires FacesInRange(data.faces, |data.vertices|)
      ensures this.data == data && scaleFactor == ScaleFactor && fresh(model)
      ensures model.Valid()
      ensures var pts := Scaled(data.vertices, ScaleFactor);
        && model.usedVertices == |pts| && |model.vertices| == Max(|pts|, 1) && model.SpheresAt(pts, VertexRadius)
        && model.usedEdges == |data.edges| && |model.edges| == Max(|data.edges|, 1)
        && model.CylindersAt(EdgeEnds(pts, data.edges), EdgeRadius)
        && model.faces == Some(AllFaces(EmptyBuffer, pts, data.faces))
        && model.dotVisible == (|pts| != 0) && model.edgeVisible == (|data.edges| != 0)
        && model.facesVisible == (|data.faces| != 0)
      ensures model.shown == (if |data.faces| == 0 then None else model.faces)
      ensures model.disposed == []
    {
      model := new GeometricModel();
      scaleFactor := ScaleFactor;
      this.data := data;
      new;
      var pts := Scaled(data.vertices, scaleFactor);
      DrawFresh(model, pts, EdgeEnds(pts, data.edges), data.faces);
    }
  }

  /**
   * `new Polyhedron(name, data, scene)` on a PolyhedronData whose edges
   * computeEdges has filled: every edge it pushed names two vertices, so
   * the constructor's demand on the edges always holds.
   */
  method FromData(data: PolyhedronData) returns (p: Polyhedron)
    requires FacesInRange(data.faces, |data.vertices|)
    requires data.edges == FirstEdges(Darts(data.faces))
    ensures fresh(p) && p.data == data && p.model.Valid()
    ensures forall k | 0 <= k < |data.edges| :: data.edges[k].a < |data.vertices| && data.edges[k].b < |data.vertices|
    ensures var pts := Scaled(data.vertices, ScaleFactor);
      && p.model.usedVertices == |pts| && p.model.SpheresAt(pts, VertexRadius)
      && p.model.usedEdges == |data.edges| && p.model.CylindersAt(EdgeEnds(pts, data.edges), EdgeRadius)
      && p.model.faces == Some(AllFaces(EmptyBuffer, pts, data.faces))
  {
    DartsInRange(|data.vertices|, data.faces);
    FirstEdgesInRange(|data.vertices|, Darts(data.faces));
    p := new Polyhedron(data);
  }

  /** The solid drawn first: the cube p6 as a Polyhedron, with 8 spheres and 12 cylinders. */
  method CubeModel() returns (p: Polyhedron)
    ensures fresh(p) && p.data.faces == P6Faces
    ensures p.model.usedVertices == 8 && p.model.usedEdges == 12
  {
    var data := MakeP6();
    P6FacesShape();
    p := FromData(data);
  }
}
