/**
 * The plane section of a polyhedron (PolyhedronSection.update in gutil.js).
 *
 * update measures every vertex against the cutting plane, nudges all those
 * measures by a small epsilon, puts one point on every edge whose two ends
 * lie strictly on opposite sides, and joins the two points of every face
 * that is crossed exactly twice with a segment.
 *
 * The nudge is guarded by `0.0 in coords`. JavaScript's `in` asks whether
 * the array has an element at index 0, not whether it contains the value
 * 0.0, so the nudge happens for every non-empty polyhedron, not only when
 * a vertex lies on the plane. This module models the guard as written
 * (`HasIndexZero`) and proves what follows from it.
 */
module Sections {
  import opened Wrappers
  import opened Geometry
  import opened PolyhedraData
  import opened EdgeScan
  import opened GeometricModels
  import opened Polyhedra

  /** A plane n.p + d = 0. */
  datatype Plane = Plane(normal: Vec3, d: real)

  /** Plane.dotCoordinate: which side of the plane p lies on, and how far (scaled by |n|). */
  function DotCoordinate(plane: Plane, p: Vec3): real
  {
    Dot(plane.normal, p) + plane.d
  }

  /** `pts.map(p => plane.dotCoordinate(p))` */
  function Distances(plane: Plane, pts: seq<Vec3>): (c: seq<real>)
    ensures |c| == |pts| && forall i | 0 <= i < |pts| :: c[i] == DotCoordinate(plane, pts[i])
  {
    seq(|pts|, i requires 0 <= i < |pts| => DotCoordinate(plane, pts[i]))
  }

  /** The default nudge, 1.0e-8. */
  const DefaultEps: real := 0.00000001

  /** `0.0 in coords`: true exactly when the array has an index 0. */
  predicate HasIndexZero(c: seq<real>)
  {
    |c| > 0
  }

  /**
   * The nudge: 1.0e-8, or half the smallest strictly positive measure if
   * that is smaller. It is positive, at most 1.0e-8, at most half of every
   * positive measure, and one of these bounds is reached.
   */
  function Eps(c: seq<real>): (eps: real)
    ensures 0.0 < eps <= DefaultEps
    ensures forall i | 0 <= i < |c| && c[i] > 0.0 :: eps <= c[i] / 2.0
    ensures eps == DefaultEps || exists i | 0 <= i < |c| :: c[i] > 0.0 && eps == c[i] / 2.0
  {
    if c == [] then DefaultEps
    else
      var rest := Eps(c[..|c| - 1]);
      var z := c[|c| - 1];
      if z > 0.0 && 0.5 * z < rest then 0.5 * z else rest
  }

  /** How much update adds to every measure: Eps(c) when the guard holds, else nothing. */
  function Shift(c: seq<real>): real
  {
    if HasIndexZero(c) then Eps(c) else 0.0
  }

  /** The measures after the nudge. */
  function Perturbed(c: seq<real>): (p: seq<real>)
    ensures |p| == |c| && forall i | 0 <= i < |c| :: p[i] == c[i] + Shift(c)
  {
    seq(|c|, i requires 0 <= i < |c| => c[i] + Shift(c))
  }

  /**
   * The nudge moves every measure up by at most 1.0e-8, keeps positive
   * measures positive, makes every zero positive, and keeps negative any
   * measure below -1.0e-8.
   */
  lemma PerturbedSigns(c: seq<real>, i: nat)
    requires i < |c|
    ensures c[i] < Perturbed(c)[i] <= c[i] + DefaultEps
    ensures c[i] >= 0.0 ==> Perturbed(c)[i] > 0.0
    ensures c[i] < -DefaultEps ==> Perturbed(c)[i] < 0.0
    ensures c[i] > 0.0 ==> Perturbed(c)[i] <= c[i] * 3.0 / 2.0
  {
    var s := Eps(c);
    assert Perturbed(c)[i] == c[i] + s;
    if c[i] > 0.0 {
      assert s <= c[i] / 2.0;
    }
  }

  /** update's test for edge [a, b]: both measures exist and have strictly opposite signs. */
  predicate Crosses(c: seq<real>, e: Edge)
  {
    e.a < |c| && e.b < |c| && c[e.a] * c[e.b] < 0.0
  }

  /** The interpolation parameter (-co_a) / (co_b - co_a). */
  function CrossParam(ca: real, cb: real): real
    requires ca * cb < 0.0
  {
    -ca / (cb - ca)
  }

  /** The parameter lies strictly inside the edge, where the measure interpolates to zero. */
  lemma CrossParamInside(ca: real, cb: real)
    requires ca * cb < 0.0
    ensures 0.0 < CrossParam(ca, cb) < 1.0
    ensures (1.0 - CrossParam(ca, cb)) * ca + CrossParam(ca, cb) * cb == 0.0
  {
    var t := CrossParam(ca, cb);
    assert t * (cb - ca) == -ca;
    if ca < 0.0 {
      assert cb > 0.0;
    } else {
      assert cb < 0.0;
    }
  }

  /** The crossing point of edge e: Vector3.Lerp(pa, pb, t). */
  function CrossPoint(pts: seq<Vec3>, c: seq<real>, e: Edge): Vec3
    requires |pts| == |c| && Crosses(c, e)
  {
    Lerp(pts[e.a], pts[e.b], CrossParam(c[e.a], c[e.b]))
  }

  /** Moving both end measures down by s moves every interpolated measure down by s. */
  lemma InterpolateShifted(t: real, x: real, y: real, s: real)
    requires (1.0 - t) * x + t * y == 0.0
    ensures (1.0 - t) * (x - s) + t * (y - s) == -s
  {
    assert (1.0 - t) * (x - s) + t * (y - s) == ((1.0 - t) * x + t * y) - s;
  }

  /** If every measure is the plane measure plus s, every crossing point has plane measure -s. */
  lemma CrossPointShifted(plane: Plane, pts: seq<Vec3>, c: seq<real>, s: real, e: Edge)
    requires |pts| == |c| && Crosses(c, e)
    requires c[e.a] == DotCoordinate(plane, pts[e.a]) + s && c[e.b] == DotCoordinate(plane, pts[e.b]) + s
    ensures DotCoordinate(plane, CrossPoint(pts, c, e)) == -s
  {
    var x, y := c[e.a], c[e.b];
    var t := CrossParam(x, y);
    CrossParamInside(x, y);
    LerpAffine(plane.normal, plane.d, pts[e.a], pts[e.b], t);
    InterpolateShifted(t, x, y, s);
  }

  /**
   * Every crossing point lies on the plane moved by the nudge: its own
   * measure is minus the shift, so it is exactly on the plane when no
   * shift happened and within 1.0e-8 of it otherwise.
   */
  lemma CrossPointOnPlane(plane: Plane, pts: seq<Vec3>, e: Edge)
    requires Crosses(Perturbed(Distances(plane, pts)), e)
    ensures DotCoordinate(plane, CrossPoint(pts, Perturbed(Distances(plane, pts)), e)) == -Shift(Distances(plane, pts))
    ensures -DefaultEps <= DotCoordinate(plane, CrossPoint(pts, Perturbed(Distances(plane, pts)), e)) <= 0.0
  {
    var d := Distances(plane, pts);
    var c := Perturbed(d);
    CrossPointShifted(plane, pts, c, Shift(d), e);
  }

  /** The points and the table `tb` built by update's loop over the edges. */
  datatype Crossings = Crossings(points: seq<Vec3>, tb: map<(nat, nat), nat>)

  /**
   * The loop over `edges`: every crossed edge [a, b] adds its crossing
   * point, and tb maps both "a,b" and "b,a" to that point's index.
   */
  function CrossAll(pts: seq<Vec3>, c: seq<real>, es: seq<Edge>): Crossings
    requires |pts| == |c|
  {
    if es == [] then Crossings([], map[])
    else
      var r := CrossAll(pts, c, es[..|es| - 1]);
      var e := es[|es| - 1];
      if Crosses(c, e) then
        var n := |r.points|;
        Crossings(r.points + [CrossPoint(pts, c, e)], r.tb[(e.a, e.b) := n][(e.b, e.a) := n])
      else r
  }

  /** The crossed edges, in order. */
  function CrossedEdges(c: seq<real>, es: seq<Edge>): (r: seq<Edge>)
    ensures forall k | 0 <= k < |r| :: Crosses(c, r[k])
  {
    if es == [] then []
    else CrossedEdges(c, es[..|es| - 1]) + (if Crosses(c, es[|es| - 1]) then [es[|es| - 1]] else [])
  }

  /** Edge e runs between x and y, in either order. */
  predicate EdgeJoins(e: Edge, x: nat, y: nat)
  {
    (e.a == x && e.b == y) || (e.a == y && e.b == x)
  }

  /**
   * What the loop over the edges builds: one point per crossed edge, in
   * edge order, each the crossing of its edge; tb is symmetric, points
   * into `points`, and has a key exactly for the two orders of every
   * crossed edge.
   */
  lemma {:induction false} CrossAllSpec(pts: seq<Vec3>, c: seq<real>, es: seq<Edge>)
    requires |pts| == |c|
    ensures var r := CrossAll(pts, c, es); var ce := CrossedEdges(c, es);
      && |r.points| == |ce|
      && (forall i | 0 <= i < |ce| :: r.points[i] == CrossPoint(pts, c, ce[i]))
      && (forall x: nat, y: nat :: (x, y) in r.tb <==> (y, x) in r.tb)
      && (forall x: nat, y: nat | (x, y) in r.tb :: r.tb[(x, y)] == r.tb[(y, x)] < |r.points|)
      && (forall x: nat, y: nat :: (x, y) in r.tb <==> exists k | 0 <= k < |es| :: Crosses(c, es[k]) && EdgeJoins(es[k], x, y))
  {
    if es != [] {
      var init := es[..|es| - 1];
      var e := es[|es| - 1];
      CrossAllSpec(pts, c, init);
      var r0 := CrossAll(pts, c, init);
      var r := CrossAll(pts, c, es);
      var ce := CrossedEdges(c, es);
      forall x: nat, y: nat
        ensures (x, y) in r.tb <==> exists k | 0 <= k < |es| :: Crosses(c, es[k]) && EdgeJoins(es[k], x, y)
      {
        if (x, y) in r0.tb {
          var k :| 0 <= k < |init| && Crosses(c, init[k]) && EdgeJoins(init[k], x, y);
          assert es[k] == init[k];
        }
        if exists k | 0 <= k < |es| :: Crosses(c, es[k]) && EdgeJoins(es[k], x, y) {
          var k :| 0 <= k < |es| && Crosses(c, es[k]) && EdgeJoins(es[k], x, y);
          if k < |init| {
            assert init[k] == es[k];
          }
        }
      }
      forall i | 0 <= i < |ce| ensures r.points[i] == CrossPoint(pts, c, ce[i]) {
        if i < |CrossedEdges(c, init)| {
          assert ce[i] == CrossedEdges(c, init)[i];
        }
      }
    }
  }

  /**
   * When no two entries of es name the same undirected edge (as for the
   * edges computeEdges builds), tb sends both orders of the k-th crossed
   * edge to the index of its own crossing point.
   */
  lemma {:induction false} CrossAllIndex(pts: seq<Vec3>, c: seq<real>, es: seq<Edge>)
    requires |pts| == |c|
    requires forall i, j | 0 <= i < j < |es| :: !SameEdge(es[i], es[j])
    ensures var r := CrossAll(pts, c, es); var ce := CrossedEdges(c, es);
      forall i | 0 <= i < |ce| ::
        && (ce[i].a, ce[i].b) in r.tb && r.tb[(ce[i].a, ce[i].b)] == i
        && (ce[i].b, ce[i].a) in r.tb && r.tb[(ce[i].b, ce[i].a)] == i
  {
    if es != [] {
      var init := es[..|es| - 1];
      var e := es[|es| - 1];
      CrossAllIndex(pts, c, init);
      CrossAllSpec(pts, c, init);
      var r0 := CrossAll(pts, c, init);
      var r := CrossAll(pts, c, es);
      var ce0 := CrossedEdges(c, init);
      var ce := CrossedEdges(c, es);
      forall i | 0 <= i < |ce|
        ensures (ce[i].a, ce[i].b) in r.tb && r.tb[(ce[i].a, ce[i].b)] == i
        ensures (ce[i].b, ce[i].a) in r.tb && r.tb[(ce[i].b, ce[i].a)] == i
      {
        if i < |ce0| && Crosses(c, e) {
          assert ce[i] == ce0[i];
          // the new keys belong to e, which names another undirected edge
          assert (ce0[i].a, ce0[i].b) in r0.tb;
          var k :| 0 <= k < |init| && Crosses(c, init[k]) && EdgeJoins(init[k], ce0[i].a, ce0[i].b);
          assert !SameEdge(es[k], es[|es| - 1]);
          assert es[k] == init[k];
        } else if i < |ce0| {
          assert ce[i] == ce0[i];
        }
      }
    }
  }

  /** update's loop over the darts of one face: the tb entries of the darts that have one, in order. */
  function Collect(tb: map<(nat, nat), nat>, ds: seq<Dart>): seq<nat>
  {
    if ds == [] then []
    else
      var d := ds[|ds| - 1];
      Collect(tb, ds[..|ds| - 1]) + (if (d.from, d.to) in tb then [tb[(d.from, d.to)]] else [])
  }

  /** The `segment` of face f. */
  function FaceSegment(tb: map<(nat, nat), nat>, f: Face): seq<nat>
  {
    Collect(tb, FaceDarts(f))
  }

  /** update's loop over the faces: a segment [a, b] for every face whose `segment` has exactly two entries. */
  function SectionEdges(tb: map<(nat, nat), nat>, faces: seq<Face>): seq<(nat, nat)>
  {
    if faces == [] then []
    else
      var s := FaceSegment(tb, faces[|faces| - 1]);
      SectionEdges(tb, faces[..|faces| - 1]) + (if |s| == 2 then [(s[0], s[1])] else [])
  }

  /** Every entry Collect gathers is a value of tb, so it indexes a crossing point. */
  lemma {:induction false} CollectBound(tb: map<(nat, nat), nat>, ds: seq<Dart>, n: nat)
    requires forall k | k in tb :: tb[k] < n
    ensures forall j | 0 <= j < |Collect(tb, ds)| :: Collect(tb, ds)[j] < n
  {
    if ds != [] {
      CollectBound(tb, ds[..|ds| - 1], n);
    }
  }

  /** Every segment joins two indices below n. */
  predicate SectionEdgesInRange(tb: map<(nat, nat), nat>, faces: seq<Face>, n: nat)
  {
    forall j | 0 <= j < |SectionEdges(tb, faces)| :: SectionEdges(tb, faces)[j].0 < n && SectionEdges(tb, faces)[j].1 < n
  }

  /** Every segment of the section joins two crossing points. */
  lemma {:induction false} SectionEdgesBound(tb: map<(nat, nat), nat>, faces: seq<Face>, n: nat)
    requires forall k | k in tb :: tb[k] < n
    ensures SectionEdgesInRange(tb, faces, n)
  {
    if faces != [] {
      SectionEdgesBound(tb, faces[..|faces| - 1], n);
      CollectBound(tb, FaceDarts(faces[|faces| - 1]), n);
    }
  }

  /** Dart d changes side: both ends are measured and the measures have strictly opposite signs. */
  predicate SignChange(c: seq<real>, d: Dart)
  {
    d.from < |c| && d.to < |c| && c[d.from] * c[d.to] < 0.0
  }

  function CountChanges(c: seq<real>, ds: seq<Dart>): nat
  {
    if ds == [] then 0
    else CountChanges(c, ds[..|ds| - 1]) + (if SignChange(c, ds[|ds| - 1]) then 1 else 0)
  }

  /** When tb has a key for a dart exactly when the dart changes side, Collect gathers one entry per side change. */
  lemma {:induction false} CollectCounts(tb: map<(nat, nat), nat>, c: seq<real>, ds: seq<Dart>)
    requires forall k | 0 <= k < |ds| :: (ds[k].from, ds[k].to) in tb <==> SignChange(c, ds[k])
    ensures |Collect(tb, ds)| == CountChanges(c, ds)
  {
    if ds != [] {
      CollectCounts(tb, c, ds[..|ds| - 1]);
    }
  }

  /** The side of vertex v: strictly positive or not. */
  predicate Above(c: seq<real>, v: nat)
    requires v < |c|
  {
    c[v] > 0.0
  }

  /**
   * Walking the first j darts of a face whose vertices are all off the
   * plane changes side an odd number of times exactly when the walk ends
   * on the other side from where it started (the face's last vertex).
   */
  lemma {:induction false} ChangesParity(c: seq<real>, f: Face, j: nat)
    requires 1 <= j <= |f|
    requires forall i | 0 <= i < |f| :: f[i] < |c| && c[f[i]] != 0.0
    ensures CountChanges(c, FaceDarts(f)[..j]) % 2 == if Above(c, f[|f| - 1]) == Above(c, f[j - 1]) then 0 else 1
  {
    var fd := FaceDarts(f);
    assert fd[..j][..j - 1] == fd[..j - 1];
    var d := fd[j - 1];
    assert SignChange(c, d) <==> Above(c, d.from) != Above(c, d.to) by {
      var x, y := c[d.from], c[d.to];
      if x > 0.0 && y > 0.0 { assert x * y > 0.0; }
      if x < 0.0 && y < 0.0 { assert x * y > 0.0; }
      if x > 0.0 && y < 0.0 { assert x * y < 0.0; }
      if x < 0.0 && y > 0.0 { assert x * y < 0.0; }
    }
    if j > 1 {
      ChangesParity(c, f, j - 1);
    }
  }

  /**
   * A face whose vertices are all off the plane is crossed an even number
   * of times: a closed walk changes side an even number of times.
   */
  lemma FaceChangesEven(c: seq<real>, f: Face)
    requires forall i | 0 <= i < |f| :: f[i] < |c| && c[f[i]] != 0.0
    ensures CountChanges(c, FaceDarts(f)) % 2 == 0
  {
    if |f| > 0 {
      ChangesParity(c, f, |f|);
      assert FaceDarts(f)[..|f|] == FaceDarts(f);
    }
  }

  /**
   * For a face all of whose darts lie along entries of es, and whose
   * vertices are all off the plane, the `segment` update collects has even
   * length: one entry per side change of the closed walk around the face.
   * In particular update never meets a face with exactly one crossing.
   */
  lemma FaceSegmentEven(pts: seq<Vec3>, c: seq<real>, es: seq<Edge>, f: Face)
    requires |pts| == |c|
    requires forall i | 0 <= i < |f| :: f[i] < |c| && c[f[i]] != 0.0
    requires Covered(FaceDarts(f), es)
    ensures |FaceSegment(CrossAll(pts, c, es).tb, f)| == CountChanges(c, FaceDarts(f))
    ensures |FaceSegment(CrossAll(pts, c, es).tb, f)| % 2 == 0
  {
    var fd := FaceDarts(f);
    forall k | 0 <= k < |fd| ensures (fd[k].from, fd[k].to) in CrossAll(pts, c, es).tb <==> SignChange(c, fd[k]) {
      var i :| 0 <= i < |es| && Joins(fd[k], es[i].a, es[i].b);
      KeyIffChange(pts, c, es, fd[k], i);
    }
    CollectCounts(CrossAll(pts, c, es).tb, c, fd);
    FaceChangesEven(c, f);
  }

  /** A dart along some entry of es has a key in tb exactly when it changes side. */
  lemma KeyIffChange(pts: seq<Vec3>, c: seq<real>, es: seq<Edge>, d: Dart, i: nat)
    requires |pts| == |c| && i < |es| && Joins(d, es[i].a, es[i].b)
    ensures (d.from, d.to) in CrossAll(pts, c, es).tb <==> SignChange(c, d)
  {
    CrossAllSpec(pts, c, es);
    SameEdgeSameChange(c, es[i], d);
    if (d.from, d.to) in CrossAll(pts, c, es).tb {
      var k :| 0 <= k < |es| && Crosses(c, es[k]) && EdgeJoins(es[k], d.from, d.to);
      SameEdgeSameChange(c, es[k], d);
    }
  }

  /** A dart along an edge, in either direction, changes side exactly when the edge is crossed. */
  lemma SameEdgeSameChange(c: seq<real>, e: Edge, d: Dart)
    requires EdgeJoins(e, d.from, d.to)
    ensures SignChange(c, d) <==> Crosses(c, e)
  {
    if d.from < |c| && d.to < |c| {
      assert c[d.from] * c[d.to] == c[d.to] * c[d.from];
    }
  }

  /** Whatever covers a + b covers both halves. */
  lemma CoveredSplit(ab: seq<Dart>, a: seq<Dart>, b: seq<Dart>, es: seq<Edge>)
    requires ab == a + b && Covered(ab, es)
    ensures Covered(a, es) && Covered(b, es)
  {
    forall k | 0 <= k < |a| ensures AlongSome(a[k], es) {
      assert a[k] == ab[k];
    }
    forall k | 0 <= k < |b| ensures AlongSome(b[k], es) {
      assert b[k] == ab[|a| + k];
    }
  }

  /** Every dart of face i lies along an edge of FirstEdges of all the darts. */
  lemma FaceDartsCovered(faces: seq<Face>, i: nat)
    requires i < |faces|
    ensures Covered(FaceDarts(faces[i]), FirstEdges(Darts(faces)))
  {
    var ds := Darts(faces);
    var es := FirstEdges(ds);
    FirstEdgesCover(ds);
    DartsAround(faces, i);
    CoveredSplit(ds, Darts(faces[..i + 1]), Darts(faces[i + 1..]), es);
    DartsPrefixStep(faces, i);
    CoveredSplit(Darts(faces[..i + 1]), Darts(faces[..i]), FaceDarts(faces[i]), es);
  }

  /**
   * For the edges computeEdges produces without throwing, every face whose
   * vertices are all off the nudged plane collects an even number of
   * entries in its `segment`: a convex face is crossed twice or not at
   * all, so update's third branch (`console.log`) needs a face crossed four
   * or more times or a vertex exactly on the nudged plane.
   */
  lemma SectionFaceEven(pts: seq<Vec3>, c: seq<real>, faces: seq<Face>, i: nat)
    requires |pts| == |c| && i < |faces|
    requires InRange(|c|, Darts(faces)) && !ScanAll(|c|, Darts(faces)).failed
    requires forall j | 0 <= j < |faces[i]| :: faces[i][j] < |c| && c[faces[i][j]] != 0.0
    ensures |FaceSegment(CrossAll(pts, c, ScanAll(|c|, Darts(faces)).edges).tb, faces[i])| % 2 == 0
  {
    var es := FirstEdges(Darts(faces));
    var fd := FaceDarts(faces[i]);
    ScanAgrees(|c|, Darts(faces));
    FaceDartsCovered(faces, i);
    FaceSegmentEven(pts, c, es, faces[i]);
  }

  /**
   * Every point of the section lies on the nudged plane: its own measure
   * is minus the nudge (between -1.0e-8 and 0, by CrossPointOnPlane).
   */
  lemma {:induction false} SectionPointsOnPlane(plane: Plane, pts: seq<Vec3>, es: seq<Edge>)
    ensures var c := Perturbed(Distances(plane, pts));
      var r := CrossAll(pts, c, es);
      forall i | 0 <= i < |r.points| :: DotCoordinate(plane, r.points[i]) == -Shift(Distances(plane, pts))
  {
    var c := Perturbed(Distances(plane, pts));
    CrossAllSpec(pts, c, es);
    var r := CrossAll(pts, c, es);
    var ce := CrossedEdges(c, es);
    forall i | 0 <= i < |r.points| ensures DotCoordinate(plane, r.points[i]) == -Shift(Distances(plane, pts)) {
      assert r.points[i] == CrossPoint(pts, c, ce[i]);
      CrossPointOnPlane(plane, pts, ce[i]);
    }
  }

  /** When no entry of es is crossed, the loop over the edges adds no point and no table entry. */
  lemma {:induction false} NoCrossingsEmpty(pts: seq<Vec3>, c: seq<real>, es: seq<Edge>)
    requires |pts| == |c|
    requires forall k | 0 <= k < |es| :: !Crosses(c, es[k])
    ensures CrossAll(pts, c, es) == Crossings([], map[])
  {
    if es != [] {
      NoCrossingsEmpty(pts, c, es[..|es| - 1]);
    }
  }

  /** An empty table gives no segments. */
  lemma {:induction false} NoSegmentsWithoutPoints(faces: seq<Face>)
    ensures SectionEdges(map[], faces) == []
  {
    if faces != [] {
      NoSegmentsWithoutPoints(faces[..|faces| - 1]);
      EmptyCollect(FaceDarts(faces[|faces| - 1]));
    }
  }

  lemma {:induction false} EmptyCollect(ds: seq<Dart>)
    ensures Collect(map[], ds) == []
  {
    if ds != [] {
      EmptyCollect(ds[..|ds| - 1]);
    }
  }

  /**
   * A plane with every vertex strictly on its positive side, or every
   * vertex more than 1.0e-8 below it, gives an empty section.
   */
  lemma OneSideEmpty(plane: Plane, pts: seq<Vec3>, es: seq<Edge>, faces: seq<Face>)
    requires (forall i | 0 <= i < |pts| :: DotCoordinate(plane, pts[i]) > 0.0) ||
             (forall i | 0 <= i < |pts| :: DotCoordinate(plane, pts[i]) < -DefaultEps)
    ensures CrossAll(pts, Perturbed(Distances(plane, pts)), es) == Crossings([], map[])
    ensures SectionEdges(CrossAll(pts, Perturbed(Distances(plane, pts)), es).tb, faces) == []
  {
    var d := Distances(plane, pts);
    var c := Perturbed(d);
    forall i | 0 <= i < |c| ensures (c[i] > 0.0) == (d[i] > 0.0) && c[i] != 0.0 {
      PerturbedSigns(d, i);
    }
    forall k | 0 <= k < |es| ensures !Crosses(c, es[k]) {
      if es[k].a < |c| && es[k].b < |c| {
        var x, y := c[es[k].a], c[es[k].b];
        if x > 0.0 { assert y > 0.0; assert x * y > 0.0; }
        else { assert y < 0.0; assert x * y > 0.0; }
      }
    }
    NoCrossingsEmpty(pts, c, es);
    NoSegmentsWithoutPoints(faces);
  }

  /**
   * The nudge happens even when no vertex is on the plane, and then it
   * can change which edges are crossed: measures -1.0e-9 and 1 have
   * opposite signs, but after the nudge both are positive.
   */
  lemma NudgeWithoutZeroDropsCrossing()
    ensures var c := [-0.000000001, 1.0];
      && (forall i | 0 <= i < |c| :: c[i] != 0.0)
      && Crosses(c, Edge(0, 1))
      && !Crosses(Perturbed(c), Edge(0, 1))
  {
    var c := [-0.000000001, 1.0];
    assert c[..1][..0] == [];
    assert Eps(c[..1]) == DefaultEps;
    assert Eps(c) == DefaultEps;
    assert Perturbed(c)[0] == c[0] + DefaultEps;
    assert Perturbed(c)[1] == c[1] + DefaultEps;
  }

  /**
   * Vertices that are all below the plane, but within 1.0e-8 of it, can
   * still produce a crossing after the nudge.
   */
  lemma NudgeCreatesCrossing()
    ensures var c := [-0.00000002, -0.000000005];
      && (forall i | 0 <= i < |c| :: c[i] < 0.0)
      && Crosses(Perturbed(c), Edge(0, 1))
  {
    var c := [-0.00000002, -0.000000005];
    assert c[..1][..0] == [];
    assert Eps(c[..1]) == DefaultEps;
    assert Eps(c) == DefaultEps;
    assert Perturbed(c)[0] == c[0] + DefaultEps;
    assert Perturbed(c)[1] == c[1] + DefaultEps;
  }

  /** `data.pts`: the crossing points projected onto the x-z plane. */
  function Projected(points: seq<Vec3>): (r: seq<(real, real)>)
    ensures |r| == |points| && forall i | 0 <= i < |points| :: r[i] == (points[i].x, points[i].z)
  {
    seq(|points|, i requires 0 <= i < |points| => (points[i].x, points[i].z))
  }

  const PointRadius: real := 0.07
  const SegmentRadius: real := 0.05

  /** The position of a vertex handle relative to its pivot: its sphere's center; an unplaced prototype sits at the origin. */
  function Center(h: Handle): Vec3
  {
    if h.place.Sphere? then h.place.center else Vec3(0.0, 0.0, 0.0)
  }

  /**
   * `ph.vertices.map(v => v.getAbsolutePosition())`: the absolute position of
   * every handle of the vertex pool, prototype included, where toWorld is
   * the pivot's world transformation.
   */
  function WorldPoints(pool: seq<Handle>, toWorld: Vec3 -> Vec3): (r: seq<Vec3>)
    ensures |r| == |pool| && forall i | 0 <= i < |pool| :: r[i] == toWorld(Center(pool[i]))
  {
    seq(|pool|, i requires 0 <= i < |pool| => toWorld(Center(pool[i])))
  }

  /** The end points of every segment [a, b], looked up among the crossing points. */
  function SegmentEnds(points: seq<Vec3>, segs: seq<(nat, nat)>): (r: seq<(Vec3, Vec3)>)
    requires forall j | 0 <= j < |segs| :: segs[j].0 < |points| && segs[j].1 < |points|
    ensures |r| == |segs| && forall j | 0 <= j < |segs| :: r[j] == (points[segs[j].0], points[segs[j].1])
  {
    seq(|segs|, j requires 0 <= j < |segs| => (points[segs[j].0], points[segs[j].1]))
  }

  lemma SegmentEndsSnoc(points: seq<Vec3>, segs: seq<(nat, nat)>, s: (nat, nat))
    requires forall j | 0 <= j < |segs| :: segs[j].0 < |points| && segs[j].1 < |points|
    requires s.0 < |points| && s.1 < |points|
    ensures SegmentEnds(points, segs + [s]) == SegmentEnds(points, segs) + [(points[s.0], points[s.1])]
  {
  }

  /** Every value of tb is below n. */
  predicate ValuesBelow(tb: map<(nat, nat), nat>, n: nat)
  {
    forall k | k in tb :: tb[k] < n
  }

  /** The values CrossAll stores in tb index its points. */
  lemma CrossAllValues(pts: seq<Vec3>, c: seq<real>, es: seq<Edge>)
    requires |pts| == |c|
    ensures ValuesBelow(CrossAll(pts, c, es).tb, |CrossAll(pts, c, es).points|)
  {
    CrossAllSpec(pts, c, es);
  }

  /**
   * update's nudge, in place: when the array has an element at index 0
   * (`0.0 in coords`), every measure is raised by Eps of the measures.
   */
  method Nudge(coords: array<real>)
    modifies coords
    ensures coords[..] == Perturbed(old(coords[..]))
  {
    ghost var c := coords[..];
    if coords.Length > 0 {
      var eps := Eps(coords[..]);
      for i := 0 to coords.Length
        invariant coords[..i] == Perturbed(c)[..i]
        invariant coords[i..] == c[i..]
      {
        assert coords[i] == c[i];
        coords[i] := coords[i] + eps;
        assert coords[..i + 1] == coords[..i] + [coords[i]];
        assert Perturbed(c)[..i + 1] == Perturbed(c)[..i] + [Perturbed(c)[i]];
      }
    }
  }

  /** The measures of update, before and after the nudge. */
  method Measures(plane: Plane, world: seq<Vec3>) returns (coords: array<real>)
    ensures fresh(coords) && coords[..] == Perturbed(Distances(plane, world))
  {
    coords := new real[|world|](i requires 0 <= i < |world| => DotCoordinate(plane, world[i]));
    assert coords[..] == Distances(plane, world);
    Nudge(coords);
  }

  /** The segment of one face: update's loop over the darts of f, reading tb. */
  method FaceLoop(tb: map<(nat, nat), nat>, f: Face) returns (segment: seq<nat>)
    ensures segment == FaceSegment(tb, f)
  {
    segment := [];
    if |f| == 0 {
      return;
    }
    ghost var fd := FaceDarts(f);
    var a := f[|f| - 1];
    for j := 0 to |f|
      invariant a == if j == 0 then f[|f| - 1] else f[j - 1]
      invariant segment == Collect(tb, fd[..j])
    {
      var b := f[j];
      assert fd[..j + 1][..j] == fd[..j];
      assert fd[j] == Dart(a, b);
      if (a, b) in tb {
        segment := segment + [tb[(a, b)]];
      }
      a := b;
    }
    assert fd[..|f|] == fd;
  }

  class PolyhedronSection {
    var model: GeometricModel
    /** `data.pts`: the crossing points projected onto the x-z plane. */
    var pts: seq<(real, real)>
    /** `data.edges`: the segments, as pairs of indices into pts. */
    var edges: seq<(nat, nat)>

    predicate Valid()
      reads this, model
    {
      model.Valid()
    }

    /** The constructor: an empty GeometricModel and empty section data. */
    constructor ()
      ensures fresh(model) && Valid()
      ensures model.vertices == [Handle(0, Unplaced)] && model.usedVertices == 0 && !model.dotVisible
      ensures model.edges == [Handle(0, Unplaced)] && model.usedEdges == 0 && !model.edgeVisible
      ensures model.faces.None? && model.shown.None? && model.facesVisible && model.disposed == []
      ensures pts == [] && edges == []
    {
      model := new GeometricModel();
      pts := [];
      edges := [];
    }

    /**
     * update's loop over the edges of the polyhedron: a sphere of radius
     * 0.07 and a projected point for every crossed edge, and the table tb.
     */
    method AddCrossings(world: seq<Vec3>, coords: array<real>, es: seq<Edge>) returns (newPts: seq<Vec3>, tb: map<(nat, nat), nat>)
      requires Valid() && model.usedVertices == 0 && pts == [] && coords.Length == |world|
      modifies this`pts, model`vertices, model`usedVertices
      ensures Valid() && Crossings(newPts, tb) == CrossAll(world, coords[..], es)
      ensures pts == Projected(newPts)
      ensures model.usedVertices == |newPts| && model.SpheresAt(newPts, PointRadius)
      ensures ReusedFrom(model.vertices, old(model.vertices), |newPts|)
    {
      ghost var c := coords[..];
      ghost var before := model.vertices;
      newPts, tb := [], map[];
      for k := 0 to |es|
        invariant Valid() && Crossings(newPts, tb) == CrossAll(world, c, es[..k])
        invariant pts == Projected(newPts)
        invariant model.usedVertices == |newPts| && model.SpheresAt(newPts, PointRadius)
        invariant ReusedFrom(model.vertices, before, |newPts|)
      {
        assert es[..k + 1][..k] == es[..k];
        var a, b := es[k].a, es[k].b;
        if a < coords.Length && b < coords.Length && coords[a] * coords[b] < 0.0 {
          var p := Lerp(world[a], world[b], -coords[a] / (coords[b] - coords[a]));
          assert p == CrossPoint(world, c, es[k]);
          tb := tb[(a, b) := |newPts|][(b, a) := |newPts|];
          newPts := newPts + [p];
          var _ := model.AddVertex(p, PointRadius);
          pts := pts + [(p.x, p.z)];
        }
      }
      assert es[..|es|] == es;
    }

    /**
     * update's loop over the faces of the polyhedron: a cylinder of radius
     * 0.05 and an entry of `edges` for every face whose segment has two
     * entries.
     */
    method AddSegments(newPts: seq<Vec3>, tb: map<(nat, nat), nat>, faces: seq<Face>)
      requires Valid() && model.usedEdges == 0 && edges == [] && ValuesBelow(tb, |newPts|)
      modifies this`edges, model`edges, model`usedEdges
      ensures Valid() && edges == SectionEdges(tb, faces)
      ensures model.usedEdges == |edges|
      ensures SectionEdgesInRange(tb, faces, |newPts|)
      ensures model.CylindersAt(SegmentEnds(newPts, edges), SegmentRadius)
      ensures ReusedFrom(model.edges, old(model.edges), |edges|)
    {
      ghost var before := model.edges;
      for fi := 0 to |faces|
        invariant Valid() && edges == SectionEdges(tb, faces[..fi])
        invariant SectionEdgesInRange(tb, faces[..fi], |newPts|)
        invariant model.usedEdges == |edges| && model.CylindersAt(SegmentEnds(newPts, edges), SegmentRadius)
        invariant ReusedFrom(model.edges, before, |edges|)
      {
        assert faces[..fi + 1][..fi] == faces[..fi];
        var segment := FaceLoop(tb, faces[fi]);
        SectionEdgesBound(tb, faces[..fi + 1], |newPts|);
        CollectBound(tb, FaceDarts(faces[fi]), |newPts|);
        if |segment| == 2 {
          var a, b := segment[0], segment[1];
          ghost var ends := SegmentEnds(newPts, edges);
          SegmentEndsSnoc(newPts, edges, (a, b));
          var _ := model.AddEdge(newPts[a], newPts[b], SegmentRadius);
          assert model.CylindersAt(ends + [(newPts[a], newPts[b])], SegmentRadius);
          edges := edges + [(a, b)];
        }
      }
      assert faces[..|faces|] == faces;
    }

    /**
     * The body of update between beginUpdate and endUpdate: the measures,
     * the nudge, the loop over the edges and the loop over the faces.
     */
    method Fill(ph: Polyhedron, toWorld: Vec3 -> Vec3, plane: Plane) returns (ghost r: Crossings)
      requires Valid() && ph.model != model && pts == [] && edges == []
      requires model.usedVertices == 0 && model.usedEdges == 0
      modifies this`pts, this`edges, model`vertices, model`usedVertices, model`edges, model`usedEdges
      ensures var world := WorldPoints(ph.model.vertices, toWorld);
        r == CrossAll(world, Perturbed(Distances(plane, world)), ph.data.edges)
      ensures Valid() && pts == Projected(r.points) && edges == SectionEdges(r.tb, ph.data.faces)
      ensures SectionEdgesInRange(r.tb, ph.data.faces, |r.points|)
      ensures model.usedVertices == |r.points| && model.SpheresAt(r.points, PointRadius)
      ensures model.usedEdges == |edges| && model.CylindersAt(SegmentEnds(r.points, edges), SegmentRadius)
      ensures ReusedFrom(model.vertices, old(model.vertices), |r.points|)
      ensures ReusedFrom(model.edges, old(model.edges), |edges|)
    {
      var world := WorldPoints(ph.model.vertices, toWorld);
      var coords := Measures(plane, world);
      var newPts, tb := AddCrossings(world, coords, ph.data.edges);
      r := Crossings(newPts, tb);
      CrossAllValues(world, coords[..], ph.data.edges);
      AddSegments(newPts, tb, ph.data.faces);
    }

    /**
     * update(ph, plane): the section of ph by the plane, drawn in this
     * model. The points are the crossings of the edges of ph with the
     * nudged plane, in edge order; the segments join the two crossings of
     * every face crossed exactly twice, in face order. The same meshes
     * are reused from one call to the next: each pool keeps one handle per
     * point or segment (at least its prototype), and the handles left over
     * from the previous call are disposed of, last first.
     */
    method Update(ph: Polyhedron, toWorld: Vec3 -> Vec3, plane: Plane)
      requires Valid() && ph.model != model
      modifies this`pts, this`edges, model
      ensures Valid() && model.faces == Some(EmptyBuffer) && model.shown == old(model.shown)
      ensures var world := WorldPoints(ph.model.vertices, toWorld);
        var r := CrossAll(world, Perturbed(Distances(plane, world)), ph.data.edges);
        && pts == Projected(r.points)
        && edges == SectionEdges(r.tb, ph.data.faces)
        && SectionEdgesInRange(r.tb, ph.data.faces, |r.points|)
        && model.usedVertices == |r.points| && model.SpheresAt(r.points, PointRadius)
        && model.usedEdges == |edges| && model.CylindersAt(SegmentEnds(r.points, edges), SegmentRadius)
        && model.dotVisible == (|r.points| != 0) && model.edgeVisible == (|edges| != 0)
        && !model.facesVisible
        && |model.vertices| == Max(|r.points|, 1) && |model.edges| == Max(|edges|, 1)
        && model.disposed == old(model.disposed)
          + DisposalOrder(old(model.vertices), Min(|old(model.vertices)|, Max(|r.points|, 1)))
          + DisposalOrder(old(model.edges), Min(|old(model.edges)|, Max(|edges|, 1)))
        && (|r.points| == 0 ==> model.vertices == old(model.vertices)[..1])
        && (|edges| == 0 ==> model.edges == old(model.edges)[..1])
    {
      pts := [];
      edges := [];
      model.BeginUpdate();
      ghost var r := Fill(ph, toWorld, plane);
      ReusedDisposal(model.vertices, old(model.vertices), |r.points|);
      ReusedDisposal(model.edges, old(model.edges), |edges|);
      var _ := model.EndUpdate();
    }
  }
}
