/**
 * The six solids of polyhedra-data.js (p4, p6, p8, p12, p20, pg20): their
 * vertices, their face tables, and what computeEdges does on each.
 *
 * For every table this module proves that the walk of computeEdges does
 * not throw and that it yields V + F - 2 edges: every dart is in range,
 * the darts are pairwise distinct and closed under reversal, so the edge
 * list holds each undirected edge of the solid exactly once (Euler's
 * formula for a sphere-like surface, V - E + F = 2).
 *
 * The certificates work on the literal dart list of each table, cut into
 * two halves so that each quantifier stays small.
 */
module FaceTables {
  import opened Geometry
  import opened PolyhedraData
  import opened EdgeScan
  import opened Wrappers

  lemma TriangleDarts(a: nat, b: nat, c: nat)
    ensures FaceDarts([a, b, c]) == [Dart(c, a), Dart(a, b), Dart(b, c)]
  {
  }

  lemma QuadDarts(a: nat, b: nat, c: nat, d: nat)
    ensures FaceDarts([a, b, c, d]) == [Dart(d, a), Dart(a, b), Dart(b, c), Dart(c, d)]
  {
  }

  lemma PentagonDarts(a: nat, b: nat, c: nat, d: nat, e: nat)
    ensures FaceDarts([a, b, c, d, e]) == [Dart(e, a), Dart(a, b), Dart(b, c), Dart(c, d), Dart(d, e)]
  {
  }

  /** The checks on the two halves A and B of a dart list make up the checks on A + B. */
  lemma HalvesCertify(n: nat, a: seq<Dart>, b: seq<Dart>)
    requires forall i | 0 <= i < |a| :: a[i].from < n && a[i].to < n && a[i].from != a[i].to
    requires forall i | 0 <= i < |b| :: b[i].from < n && b[i].to < n && b[i].from != b[i].to
    requires forall i, j | 0 <= i < j < |a| :: a[i] != a[j]
    requires forall i, j | 0 <= i < j < |b| :: b[i] != b[j]
    requires forall i, j | 0 <= i < |a| && 0 <= j < |b| :: a[i] != b[j]
    requires forall i | 0 <= i < |a| :: Reverse(a[i]) in a + b
    requires forall i | 0 <= i < |b| :: Reverse(b[i]) in a + b
    ensures InRange(n, a + b) && Distinct(a + b) && NoLoops(a + b) && Closed(a + b)
  {
    var ds := a + b;
    forall i | |a| <= i < |ds| ensures ds[i] == b[i - |a|] {
    }
    forall i, j | 0 <= i < j < |ds| ensures ds[i] != ds[j] {
      if j < |a| {
        assert ds[i] == a[i] && ds[j] == a[j];
      } else if i < |a| {
        assert ds[i] == a[i];
      }
    }
  }

  /** Pairwise distinctness of s from that of its two parts and of the pairs across them. */
  lemma DistinctJoin(s: seq<Dart>, m: nat)
    requires m <= |s|
    requires forall i, j | 0 <= i < j < m :: s[i] != s[j]
    requires forall i, j | m <= i < j < |s| :: s[i] != s[j]
    requires forall i, j | 0 <= i < m <= j < |s| :: s[i] != s[j]
    ensures forall i, j | 0 <= i < j < |s| :: s[i] != s[j]
  {
  }

  /** No dart shared between a and b, from the four blocks their cuts at m and k make. */
  lemma ApartJoin(a: seq<Dart>, b: seq<Dart>, m: nat, k: nat)
    requires m <= |a| && k <= |b|
    requires forall i, j | 0 <= i < m && 0 <= j < k :: a[i] != b[j]
    requires forall i, j | 0 <= i < m && k <= j < |b| :: a[i] != b[j]
    requires forall i, j | m <= i < |a| && 0 <= j < k :: a[i] != b[j]
    requires forall i, j | m <= i < |a| && k <= j < |b| :: a[i] != b[j]
    ensures forall i, j | 0 <= i < |a| && 0 <= j < |b| :: a[i] != b[j]
  {
  }

  /**
   * computeEdges on a table whose darts pass the checks: no throw, and
   * one edge for every two darts.
   */
  lemma CertifiedTable(n: nat, faces: seq<Face>, edgeCount: nat)
    requires InRange(n, Darts(faces)) && Distinct(Darts(faces))
    requires NoLoops(Darts(faces)) && Closed(Darts(faces))
    requires |Darts(faces)| == 2 * edgeCount
    ensures !ScanAll(n, Darts(faces)).failed
    ensures ScanAll(n, Darts(faces)).edges == FirstEdges(Darts(faces))
    ensures |ScanAll(n, Darts(faces)).edges| == edgeCount
  {
    DistinctNeverFails(n, Darts(faces));
    ClosedSurfaceCount(Darts(faces));
  }

  /** The golden-ratio constant f = (sqrt(5) - 1) / 2 of p12, p20 and pg20, pinned down as the positive root of f*f + f = 1. */
  predicate IsGoldenF(f: real)
  {
    f > 0.0 && f * f + f == 1.0
  }

  // ---- p4: the tetrahedron ----

  const P4Vertices: seq<Vec3> := [
    Vec3(1.0, 1.0, 1.0), Vec3(-1.0, -1.0, 1.0), Vec3(-1.0, 1.0, -1.0), Vec3(1.0, -1.0, -1.0)
  ]

  const P4Faces: seq<Face> := [
    [0, 1, 2], [0, 2, 3], [0, 3, 1], [3, 2, 1]
  ]

  /** The darts of the first 2 faces of p4. */
  const P4DartsA: seq<Dart> := [
    Dart(2, 0), Dart(0, 1), Dart(1, 2), Dart(3, 0), Dart(0, 2), Dart(2, 3)
  ]

  /** The darts of the remaining faces of p4. */
  const P4DartsB: seq<Dart> := [
    Dart(1, 0), Dart(0, 3), Dart(3, 1), Dart(1, 3), Dart(3, 2), Dart(2, 1)
  ]

  lemma P4Prefix2()
    ensures Darts(P4Faces[..2]) == P4DartsA
  {
    assert P4Faces[..0] == [];
    assert Darts(P4Faces[..1]) == [Dart(2, 0), Dart(0, 1), Dart(1, 2)] by {
      DartsPrefixStep(P4Faces, 0);
      TriangleDarts(0, 1, 2);
    }
    DartsPrefixStep(P4Faces, 1);
    TriangleDarts(0, 2, 3);
  }

  lemma P4Prefix4()
    ensures Darts(P4Faces[..4]) == P4DartsA + P4DartsB
  {
    P4Prefix2();
    assert Darts(P4Faces[..3]) == P4DartsA + [Dart(1, 0), Dart(0, 3), Dart(3, 1)] by {
      DartsPrefixStep(P4Faces, 2);
      TriangleDarts(0, 3, 1);
    }
    DartsPrefixStep(P4Faces, 3);
    TriangleDarts(3, 2, 1);
  }

  /** The darts computeEdges walks on p4, in walk order. */
  lemma P4Darts()
    ensures Darts(P4Faces) == P4DartsA + P4DartsB
  {
    P4Prefix4();
    assert P4Faces[..4] == P4Faces;
  }

  lemma P4HalfA()
    ensures forall i | 0 <= i < |P4DartsA| :: P4DartsA[i].from < 4 && P4DartsA[i].to < 4 && P4DartsA[i].from != P4DartsA[i].to
    ensures forall i, j | 0 <= i < j < |P4DartsA| :: P4DartsA[i] != P4DartsA[j]
  {
  }

  lemma P4HalfB()
    ensures forall i | 0 <= i < |P4DartsB| :: P4DartsB[i].from < 4 && P4DartsB[i].to < 4 && P4DartsB[i].from != P4DartsB[i].to
    ensures forall i, j | 0 <= i < j < |P4DartsB| :: P4DartsB[i] != P4DartsB[j]
  {
  }

  lemma P4HalvesApart()
    ensures forall i, j | 0 <= i < |P4DartsA| && 0 <= j < |P4DartsB| :: P4DartsA[i] != P4DartsB[j]
  {
  }

  lemma P4HalvesClosed()
    ensures forall i | 0 <= i < |P4DartsA| :: Reverse(P4DartsA[i]) in P4DartsA + P4DartsB
    ensures forall i | 0 <= i < |P4DartsB| :: Reverse(P4DartsB[i]) in P4DartsA + P4DartsB
  {
  }

  /** Every face of p4 has at least three vertices, all of them among its 4 vertices. */
  lemma P4FacesShape()
    ensures forall i | 0 <= i < |P4Faces| :: 3 <= |P4Faces[i]| && forall j | 0 <= j < |P4Faces[i]| :: P4Faces[i][j] < 4
  {
  }

  /** computeEdges on p4 does not throw and finds its 6 edges (4 vertices, 4 faces). */
  lemma P4Edges()
    ensures !ScanAll(4, Darts(P4Faces)).failed
    ensures ScanAll(4, Darts(P4Faces)).edges == FirstEdges(Darts(P4Faces))
    ensures |ScanAll(4, Darts(P4Faces)).edges| == 6 == 4 + 4 - 2
  {
    P4HalfA();
    P4HalfB();
    P4HalvesApart();
    P4HalvesClosed();
    HalvesCertify(4, P4DartsA, P4DartsB);
    P4Darts();
    CertifiedTable(4, P4Faces, 6);
  }

  /** PolyhedronData.p4: the solid built and its edges computed; computeEdges does not throw. */
  method MakeP4() returns (ph: PolyhedronData)
    ensures fresh(ph)
    ensures ph.vertices == P4Vertices && ph.faces == P4Faces
    ensures ph.edges == FirstEdges(Darts(P4Faces)) && |ph.edges| == 6
  {
    ph := new PolyhedronData(P4Vertices, P4Faces);
    var r := ph.ComputeEdges();
    P4Edges();
    assert r == Pass;
  }

  // ---- p6: the cube ----

  const P6Vertices: seq<Vec3> := [
    Vec3(-1.0, -1.0, -1.0), Vec3(1.0, -1.0, -1.0), Vec3(-1.0, 1.0, -1.0), Vec3(1.0, 1.0, -1.0),
    Vec3(-1.0, -1.0, 1.0), Vec3(1.0, -1.0, 1.0), Vec3(-1.0, 1.0, 1.0), Vec3(1.0, 1.0, 1.0)
  ]

  const P6Faces: seq<Face> := [
    [0, 1, 3, 2], [1, 0, 4, 5], [3, 1, 5, 7], [2, 3, 7, 6], [0, 2, 6, 4], [4, 6, 7, 5]
  ]

  /** The darts of the first 3 faces of p6. */
  const P6DartsA: seq<Dart> := [
    Dart(2, 0), Dart(0, 1), Dart(1, 3), Dart(3, 2), Dart(5, 1), Dart(1, 0), Dart(0, 4),
    Dart(4, 5), Dart(7, 3), Dart(3, 1), Dart(1, 5), Dart(5, 7)
  ]

  /** The darts of the remaining faces of p6. */
  const P6DartsB: seq<Dart> := [
    Dart(6, 2), Dart(2, 3), Dart(3, 7), Dart(7, 6), Dart(4, 0), Dart(0, 2), Dart(2, 6),
    Dart(6, 4), Dart(5, 4), Dart(4, 6), Dart(6, 7), Dart(7, 5)
  ]

  lemma P6Prefix2()
    ensures Darts(P6Faces[..2]) == [Dart(2, 0), Dart(0, 1), Dart(1, 3), Dart(3, 2), Dart(5, 1), Dart(1, 0), Dart(0, 4), Dart(4, 5)]
  {
    assert P6Faces[..0] == [];
    assert Darts(P6Faces[..1]) == [Dart(2, 0), Dart(0, 1), Dart(1, 3), Dart(3, 2)] by {
      DartsPrefixStep(P6Faces, 0);
      QuadDarts(0, 1, 3, 2);
    }
    DartsPrefixStep(P6Faces, 1);
    QuadDarts(1, 0, 4, 5);
  }

  lemma P6Prefix4()
    ensures Darts(P6Faces[..4]) == P6DartsA + [Dart(6, 2), Dart(2, 3), Dart(3, 7), Dart(7, 6)]
  {
    P6Prefix2();
    assert Darts(P6Faces[..3]) == P6DartsA by {
      DartsPrefixStep(P6Faces, 2);
      QuadDarts(3, 1, 5, 7);
    }
    DartsPrefixStep(P6Faces, 3);
    QuadDarts(2, 3, 7, 6);
  }

  lemma P6Prefix6()
    ensures Darts(P6Faces[..6]) == P6DartsA + P6DartsB
  {
    P6Prefix4();
    assert Darts(P6Faces[..5]) == P6DartsA + [Dart(6, 2), Dart(2, 3), Dart(3, 7), Dart(7, 6), Dart(4, 0), Dart(0, 2), Dart(2, 6), Dart(6, 4)] by {
      DartsPrefixStep(P6Faces, 4);
      QuadDarts(0, 2, 6, 4);
    }
    DartsPrefixStep(P6Faces, 5);
    QuadDarts(4, 6, 7, 5);
  }

  /** The darts computeEdges walks on p6, in walk order. */
  lemma P6Darts()
    ensures Darts(P6Faces) == P6DartsA + P6DartsB
  {
    P6Prefix6();
    assert P6Faces[..6] == P6Faces;
  }

  lemma P6HalfA()
    ensures forall i | 0 <= i < |P6DartsA| :: P6DartsA[i].from < 8 && P6DartsA[i].to < 8 && P6DartsA[i].from != P6DartsA[i].to
    ensures forall i, j | 0 <= i < j < |P6DartsA| :: P6DartsA[i] != P6DartsA[j]
  {
  }

  lemma P6HalfB()
    ensures forall i | 0 <= i < |P6DartsB| :: P6DartsB[i].from < 8 && P6DartsB[i].to < 8 && P6DartsB[i].from != P6DartsB[i].to
    ensures forall i, j | 0 <= i < j < |P6DartsB| :: P6DartsB[i] != P6DartsB[j]
  {
  }

  lemma P6HalvesApart()
    ensures forall i, j | 0 <= i < |P6DartsA| && 0 <= j < |P6DartsB| :: P6DartsA[i] != P6DartsB[j]
  {
  }

  lemma P6HalvesClosed()
    ensures forall i | 0 <= i < |P6DartsA| :: Reverse(P6DartsA[i]) in P6DartsA + P6DartsB
    ensures forall i | 0 <= i < |P6DartsB| :: Reverse(P6DartsB[i]) in P6DartsA + P6DartsB
  {
  }

  /** Every face of p6 has at least three vertices, all of them among its 8 vertices. */
  lemma P6FacesShape()
    ensures forall i | 0 <= i < |P6Faces| :: 3 <= |P6Faces[i]| && forall j | 0 <= j < |P6Faces[i]| :: P6Faces[i][j] < 8
  {
  }

  /** computeEdges on p6 does not throw and finds its 12 edges (8 vertices, 6 faces). */
  lemma P6Edges()
    ensures !ScanAll(8, Darts(P6Faces)).failed
    ensures ScanAll(8, Darts(P6Faces)).edges == FirstEdges(Darts(P6Faces))
    ensures |ScanAll(8, Darts(P6Faces)).edges| == 12 == 8 + 6 - 2
  {
    P6HalfA();
    P6HalfB();
    P6HalvesApart();
    P6HalvesClosed();
    HalvesCertify(8, P6DartsA, P6DartsB);
    P6Darts();
    CertifiedTable(8, P6Faces, 12);
  }

  /** PolyhedronData.p6: the solid built and its edges computed; computeEdges does not throw. */
  method MakeP6() returns (ph: PolyhedronData)
    ensures fresh(ph)
    ensures ph.vertices == P6Vertices && ph.faces == P6Faces
    ensures ph.edges == FirstEdges(Darts(P6Faces)) && |ph.edges| == 12
  {
    ph := new PolyhedronData(P6Vertices, P6Faces);
    var r := ph.ComputeEdges();
    P6Edges();
    assert r == Pass;
  }

  // ---- p8: the octahedron ----

  const P8Vertices: seq<Vec3> := [
    Vec3(0.0, 1.0, 0.0), Vec3(-1.0, 0.0, 0.0), Vec3(0.0, 0.0, -1.0), Vec3(1.0, 0.0, 0.0),
    Vec3(0.0, 0.0, 1.0), Vec3(0.0, -1.0, 0.0)
  ]

  const P8Faces: seq<Face> := [
    [0, 1, 2], [0, 2, 3], [0, 3, 4], [0, 4, 1], [5, 2, 1], [5, 3, 2], [5, 4, 3], [5, 1, 4]
  ]

  /** The darts of the first 4 faces of p8. */
  const P8DartsA: seq<Dart> := [
    Dart(2, 0), Dart(0, 1), Dart(1, 2), Dart(3, 0), Dart(0, 2), Dart(2, 3), Dart(4, 0),
    Dart(0, 3), Dart(3, 4), Dart(1, 0), Dart(0, 4), Dart(4, 1)
  ]

  /** The darts of the remaining faces of p8. */
  const P8DartsB: seq<Dart> := [
    Dart(1, 5), Dart(5, 2), Dart(2, 1), Dart(2, 5), Dart(5, 3), Dart(3, 2), Dart(3, 5),
    Dart(5, 4), Dart(4, 3), Dart(4, 5), Dart(5, 1), Dart(1, 4)
  ]

  lemma P8Prefix2()
    ensures Darts(P8Faces[..2]) == [Dart(2, 0), Dart(0, 1), Dart(1, 2), Dart(3, 0), Dart(0, 2), Dart(2, 3)]
  {
    assert P8Faces[..0] == [];
    assert Darts(P8Faces[..1]) == [Dart(2, 0), Dart(0, 1), Dart(1, 2)] by {
      DartsPrefixStep(P8Faces, 0);
      TriangleDarts(0, 1, 2);
    }
    DartsPrefixStep(P8Faces, 1);
    TriangleDarts(0, 2, 3);
  }

  lemma P8Prefix4()
    ensures Darts(P8Faces[..4]) == P8DartsA
  {
    P8Prefix2();
    assert Darts(P8Faces[..3]) == [Dart(2, 0), Dart(0, 1), Dart(1, 2), Dart(3, 0), Dart(0, 2), Dart(2, 3), Dart(4, 0), Dart(0, 3), Dart(3, 4)] by {
      DartsPrefixStep(P8Faces, 2);
      TriangleDarts(0, 3, 4);
    }
    DartsPrefixStep(P8Faces, 3);
    TriangleDarts(0, 4, 1);
  }

  lemma P8Prefix6()
    ensures Darts(P8Faces[..6]) == P8DartsA + [Dart(1, 5), Dart(5, 2), Dart(2, 1), Dart(2, 5), Dart(5, 3), Dart(3, 2)]
  {
    P8Prefix4();
    assert Darts(P8Faces[..5]) == P8DartsA + [Dart(1, 5), Dart(5, 2), Dart(2, 1)] by {
      DartsPrefixStep(P8Faces, 4);
      TriangleDarts(5, 2, 1);
    }
    DartsPrefixStep(P8Faces, 5);
    TriangleDarts(5, 3, 2);
  }

  lemma P8Prefix8()
    ensures Darts(P8Faces[..8]) == P8DartsA + P8DartsB
  {
    P8Prefix6();
    assert Darts(P8Faces[..7]) == P8DartsA + [Dart(1, 5), Dart(5, 2), Dart(2, 1), Dart(2, 5), Dart(5, 3), Dart(3, 2), Dart(3, 5), Dart(5, 4), Dart(4, 3)] by {
      DartsPrefixStep(P8Faces, 6);
      TriangleDarts(5, 4, 3);
    }
    DartsPrefixStep(P8Faces, 7);
    TriangleDarts(5, 1, 4);
  }

  /** The darts computeEdges walks on p8, in walk order. */
  lemma P8Darts()
    ensures Darts(P8Faces) == P8DartsA + P8DartsB
  {
    P8Prefix8();
    assert P8Faces[..8] == P8Faces;
  }

  lemma P8HalfA()
    ensures forall i | 0 <= i < |P8DartsA| :: P8DartsA[i].from < 6 && P8DartsA[i].to < 6 && P8DartsA[i].from != P8DartsA[i].to
    ensures forall i, j | 0 <= i < j < |P8DartsA| :: P8DartsA[i] != P8DartsA[j]
  {
  }

  lemma P8HalfB()
    ensures forall i | 0 <= i < |P8DartsB| :: P8DartsB[i].from < 6 && P8DartsB[i].to < 6 && P8DartsB[i].from != P8DartsB[i].to
    ensures forall i, j | 0 <= i < j < |P8DartsB| :: P8DartsB[i] != P8DartsB[j]
  {
  }

  lemma P8HalvesApart()
    ensures forall i, j | 0 <= i < |P8DartsA| && 0 <= j < |P8DartsB| :: P8DartsA[i] != P8DartsB[j]
  {
  }

  lemma P8HalvesClosed()
    ensures forall i | 0 <= i < |P8DartsA| :: Reverse(P8DartsA[i]) in P8DartsA + P8DartsB
    ensures forall i | 0 <= i < |P8DartsB| :: Reverse(P8DartsB[i]) in P8DartsA + P8DartsB
  {
  }

  /** Every face of p8 has at least three vertices, all of them among its 6 vertices. */
  lemma P8FacesShape()
    ensures forall i | 0 <= i < |P8Faces| :: 3 <= |P8Faces[i]| && forall j | 0 <= j < |P8Faces[i]| :: P8Faces[i][j] < 6
  {
  }

  /** computeEdges on p8 does not throw and finds its 12 edges (6 vertices, 8 faces). */
  lemma P8Edges()
    ensures !ScanAll(6, Darts(P8Faces)).failed
    ensures ScanAll(6, Darts(P8Faces)).edges == FirstEdges(Darts(P8Faces))
    ensures |ScanAll(6, Darts(P8Faces)).edges| == 12 == 6 + 8 - 2
  {
    P8HalfA();
    P8HalfB();
    P8HalvesApart();
    P8HalvesClosed();
    HalvesCertify(6, P8DartsA, P8DartsB);
    P8Darts();
    CertifiedTable(6, P8Faces, 12);
  }

  /** PolyhedronData.p8: the solid built and its edges computed; computeEdges does not throw. */
  method MakeP8() returns (ph: PolyhedronData)
    ensures fresh(ph)
    ensures ph.vertices == P8Vertices && ph.faces == P8Faces
    ensures ph.edges == FirstEdges(Darts(P8Faces)) && |ph.edges| == 12
  {
    ph := new PolyhedronData(P8Vertices, P8Faces);
    var r := ph.ComputeEdges();
    P8Edges();
    assert r == Pass;
  }

  // ---- p12: the dodecahedron ----

  /** The vertices of p12, with f = (sqrt(5) - 1) / 2 and g = 1/f. */
  function P12Vertices(f: real): (vs: seq<Vec3>)
    requires IsGoldenF(f)
    ensures |vs| == 20
  {
    var g := 1.0 / f;
    [
      Vec3(-1.0, 1.0, -1.0), Vec3(1.0, 1.0, -1.0), Vec3(-1.0, 1.0, 1.0), Vec3(1.0, 1.0, 1.0),
      Vec3(-1.0, -1.0, -1.0), Vec3(1.0, -1.0, -1.0), Vec3(-1.0, -1.0, 1.0),
      Vec3(1.0, -1.0, 1.0), Vec3(0.0, g, -f), Vec3(0.0, g, f), Vec3(-g, f, 0.0),
      Vec3(-g, -f, 0.0), Vec3(g, f, 0.0), Vec3(g, -f, 0.0), Vec3(-f, 0.0, -g),
      Vec3(f, 0.0, -g), Vec3(-f, 0.0, g), Vec3(f, 0.0, g), Vec3(0.0, -g, -f), Vec3(0.0, -g, f)
    ]
  }

  const P12Faces: seq<Face> := [
    [0, 8, 9, 2, 10], [1, 12, 3, 9, 8], [9, 3, 17, 16, 2], [8, 0, 14, 15, 1],
    [0, 10, 11, 4, 14], [11, 10, 2, 16, 6], [3, 12, 13, 7, 17], [12, 1, 15, 5, 13],
    [16, 17, 7, 19, 6], [4, 18, 5, 15, 14], [4, 11, 6, 19, 18], [5, 18, 19, 7, 13]
  ]

  /** The darts of the first 6 faces of p12. */
  const P12DartsA: seq<Dart> := [
    Dart(10, 0), Dart(0, 8), Dart(8, 9), Dart(9, 2), Dart(2, 10), Dart(8, 1), Dart(1, 12),
    Dart(12, 3), Dart(3, 9), Dart(9, 8), Dart(2, 9), Dart(9, 3), Dart(3, 17), Dart(17, 16),
    Dart(16, 2), Dart(1, 8), Dart(8, 0), Dart(0, 14), Dart(14, 15), Dart(15, 1), Dart(14, 0),
    Dart(0, 10), Dart(10, 11), Dart(11, 4), Dart(4, 14), Dart(6, 11), Dart(11, 10),
    Dart(10, 2), Dart(2, 16), Dart(16, 6)
  ]

  /** The darts of the remaining faces of p12. */
  const P12DartsB: seq<Dart> := [
    Dart(17, 3), Dart(3, 12), Dart(12, 13), Dart(13, 7), Dart(7, 17), Dart(13, 12),
    Dart(12, 1), Dart(1, 15), Dart(15, 5), Dart(5, 13), Dart(6, 16), Dart(16, 17), Dart(17, 7),
    Dart(7, 19), Dart(19, 6), Dart(14, 4), Dart(4, 18), Dart(18, 5), Dart(5, 15), Dart(15, 14),
    Dart(18, 4), Dart(4, 11), Dart(11, 6), Dart(6, 19), Dart(19, 18), Dart(13, 5), Dart(5, 18),
    Dart(18, 19), Dart(19, 7), Dart(7, 13)
  ]

  lemma P12Prefix2()
    ensures Darts(P12Faces[..2]) == [Dart(10, 0), Dart(0, 8), Dart(8, 9), Dart(9, 2), Dart(2, 10), Dart(8, 1), Dart(1, 12), Dart(12, 3), Dart(3, 9), Dart(9, 8)]
  {
    assert P12Faces[..0] == [];
    assert Darts(P12Faces[..1]) == [Dart(10, 0), Dart(0, 8), Dart(8, 9), Dart(9, 2), Dart(2, 10)] by {
      DartsPrefixStep(P12Faces, 0);
      PentagonDarts(0, 8, 9, 2, 10);
    }
    DartsPrefixStep(P12Faces, 1);
    PentagonDarts(1, 12, 3, 9, 8);
  }

  lemma P12Prefix4()
    ensures Darts(P12Faces[..4]) == [Dart(10, 0), Dart(0, 8), Dart(8, 9), Dart(9, 2), Dart(2, 10), Dart(8, 1), Dart(1, 12), Dart(12, 3), Dart(3, 9), Dart(9, 8), Dart(2, 9), Dart(9, 3), Dart(3, 17), Dart(17, 16), Dart(16, 2), Dart(1, 8), Dart(8, 0), Dart(0, 14), Dart(14, 15), Dart(15, 1)]
  {
    P12Prefix2();
    assert Darts(P12Faces[..3]) == [Dart(10, 0), Dart(0, 8), Dart(8, 9), Dart(9, 2), Dart(2, 10), Dart(8, 1), Dart(1, 12), Dart(12, 3), Dart(3, 9), Dart(9, 8), Dart(2, 9), Dart(9, 3), Dart(3, 17), Dart(17, 16), Dart(16, 2)] by {
      DartsPrefixStep(P12Faces, 2);
      PentagonDarts(9, 3, 17, 16, 2);
    }
    DartsPrefixStep(P12Faces, 3);
    PentagonDarts(8, 0, 14, 15, 1);
  }

  lemma P12Prefix6()
    ensures Darts(P12Faces[..6]) == P12DartsA
  {
    P12Prefix4();
    assert Darts(P12Faces[..5]) == [Dart(10, 0), Dart(0, 8), Dart(8, 9), Dart(9, 2), Dart(2, 10), Dart(8, 1), Dart(1, 12), Dart(12, 3), Dart(3, 9), Dart(9, 8), Dart(2, 9), Dart(9, 3), Dart(3, 17), Dart(17, 16), Dart(16, 2), Dart(1, 8), Dart(8, 0), Dart(0, 14), Dart(14, 15), Dart(15, 1), Dart(14, 0), Dart(0, 10), Dart(10, 11), Dart(11, 4), Dart(4, 14)] by {
      DartsPrefixStep(P12Faces, 4);
      PentagonDarts(0, 10, 11, 4, 14);
    }
    DartsPrefixStep(P12Faces, 5);
    PentagonDarts(11, 10, 2, 16, 6);
  }

  lemma P12Prefix8()
    ensures Darts(P12Faces[..8]) == P12DartsA + [Dart(17, 3), Dart(3, 12), Dart(12, 13), Dart(13, 7), Dart(7, 17), Dart(13, 12), Dart(12, 1), Dart(1, 15), Dart(15, 5), Dart(5, 13)]
  {
    P12Prefix6();
    assert Darts(P12Faces[..7]) == P12DartsA + [Dart(17, 3), Dart(3, 12), Dart(12, 13), Dart(13, 7), Dart(7, 17)] by {
      DartsPrefixStep(P12Faces, 6);
      PentagonDarts(3, 12, 13, 7, 17);
    }
    DartsPrefixStep(P12Faces, 7);
    PentagonDarts(12, 1, 15, 5, 13);
  }

  lemma P12Prefix10()
    ensures Darts(P12Faces[..10]) == P12DartsA + [Dart(17, 3), Dart(3, 12), Dart(12, 13), Dart(13, 7), Dart(7, 17), Dart(13, 12), Dart(12, 1), Dart(1, 15), Dart(15, 5), Dart(5, 13), Dart(6, 16), Dart(16, 17), Dart(17, 7), Dart(7, 19), Dart(19, 6), Dart(14, 4), Dart(4, 18), Dart(18, 5), Dart(5, 15), Dart(15, 14)]
  {
    P12Prefix8();
    assert Darts(P12Faces[..9]) == P12DartsA + [Dart(17, 3), Dart(3, 12), Dart(12, 13), Dart(13, 7), Dart(7, 17), Dart(13, 12), Dart(12, 1), Dart(1, 15), Dart(15, 5), Dart(5, 13), Dart(6, 16), Dart(16, 17), Dart(17, 7), Dart(7, 19), Dart(19, 6)] by {
      DartsPrefixStep(P12Faces, 8);
      PentagonDarts(16, 17, 7, 19, 6);
    }
    DartsPrefixStep(P12Faces, 9);
    PentagonDarts(4, 18, 5, 15, 14);
  }

  lemma P12Prefix12()
    ensures Darts(P12Faces[..12]) == P12DartsA + P12DartsB
  {
    P12Prefix10();
    assert Darts(P12Faces[..11]) == P12DartsA + [Dart(17, 3), Dart(3, 12), Dart(12, 13), Dart(13, 7), Dart(7, 17), Dart(13, 12), Dart(12, 1), Dart(1, 15), Dart(15, 5), Dart(5, 13), Dart(6, 16), Dart(16, 17), Dart(17, 7), Dart(7, 19), Dart(19, 6), Dart(14, 4), Dart(4, 18), Dart(18, 5), Dart(5, 15), Dart(15, 14), Dart(18, 4), Dart(4, 11), Dart(11, 6), Dart(6, 19), Dart(19, 18)] by {
      DartsPrefixStep(P12Faces, 10);
      PentagonDarts(4, 11, 6, 19, 18);
    }
    DartsPrefixStep(P12Faces, 11);
    PentagonDarts(5, 18, 19, 7, 13);
  }

  /** The darts computeEdges walks on p12, in walk order. */
  lemma P12Darts()
    ensures Darts(P12Faces) == P12DartsA + P12DartsB
  {
    P12Prefix12();
    assert P12Faces[..12] == P12Faces;
  }

  lemma P12HalfA()
    ensures forall i | 0 <= i < |P12DartsA| :: P12DartsA[i].from < 20 && P12DartsA[i].to < 20 && P12DartsA[i].from != P12DartsA[i].to
    ensures forall i, j | 0 <= i < j < |P12DartsA| :: P12DartsA[i] != P12DartsA[j]
  {
    P12HalfALow();
    P12HalfAHigh();
    P12HalfAAcross();
    DistinctJoin(P12DartsA, 15);
  }

  lemma P12HalfB()
    ensures forall i | 0 <= i < |P12DartsB| :: P12DartsB[i].from < 20 && P12DartsB[i].to < 20 && P12DartsB[i].from != P12DartsB[i].to
    ensures forall i, j | 0 <= i < j < |P12DartsB| :: P12DartsB[i] != P12DartsB[j]
  {
    P12HalfBLow();
    P12HalfBHigh();
    P12HalfBAcross();
    DistinctJoin(P12DartsB, 15);
  }

  lemma P12HalfALow()
    ensures forall i, j | 0 <= i < j < 15 :: P12DartsA[i] != P12DartsA[j]
  {
  }

  lemma P12HalfAHigh()
    ensures forall i, j | 15 <= i < j < |P12DartsA| :: P12DartsA[i] != P12DartsA[j]
  {
  }

  lemma P12HalfAAcross()
    ensures forall i, j | 0 <= i < 15 <= j < |P12DartsA| :: P12DartsA[i] != P12DartsA[j]
  {
  }

  lemma P12HalfBLow()
    ensures forall i, j | 0 <= i < j < 15 :: P12DartsB[i] != P12DartsB[j]
  {
  }

  lemma P12HalfBHigh()
    ensures forall i, j | 15 <= i < j < |P12DartsB| :: P12DartsB[i] != P12DartsB[j]
  {
  }

  lemma P12HalfBAcross()
    ensures forall i, j | 0 <= i < 15 <= j < |P12DartsB| :: P12DartsB[i] != P12DartsB[j]
  {
  }

  lemma P12ApartLowLow()
    ensures forall i, j | 0 <= i < 15 && 0 <= j < 15 :: P12DartsA[i] != P12DartsB[j]
  {
  }

  lemma P12ApartLowHigh()
    ensures forall i, j | 0 <= i < 15 && 15 <= j < |P12DartsB| :: P12DartsA[i] != P12DartsB[j]
  {
  }

  lemma P12ApartHighLow()
    ensures forall i, j | 15 <= i < |P12DartsA| && 0 <= j < 15 :: P12DartsA[i] != P12DartsB[j]
  {
  }

  lemma P12ApartHighHigh()
    ensures forall i, j | 15 <= i < |P12DartsA| && 15 <= j < |P12DartsB| :: P12DartsA[i] != P12DartsB[j]
  {
  }

  lemma P12HalvesApart()
    ensures forall i, j | 0 <= i < |P12DartsA| && 0 <= j < |P12DartsB| :: P12DartsA[i] != P12DartsB[j]
  {
    P12ApartLowLow();
    P12ApartLowHigh();
    P12ApartHighLow();
    P12ApartHighHigh();
    ApartJoin(P12DartsA, P12DartsB, 15, 15);
  }

  lemma P12HalvesClosed()
    ensures forall i | 0 <= i < |P12DartsA| :: Reverse(P12DartsA[i]) in P12DartsA + P12DartsB
    ensures forall i | 0 <= i < |P12DartsB| :: Reverse(P12DartsB[i]) in P12DartsA + P12DartsB
  {
  }

  /** Every face of p12 has at least three vertices, all of them among its 20 vertices. */
  lemma P12FacesShape()
    ensures forall i | 0 <= i < |P12Faces| :: 3 <= |P12Faces[i]| && forall j | 0 <= j < |P12Faces[i]| :: P12Faces[i][j] < 20
  {
  }

  /** computeEdges on p12 does not throw and finds its 30 edges (20 vertices, 12 faces). */
  lemma P12Edges()
    ensures !ScanAll(20, Darts(P12Faces)).failed
    ensures ScanAll(20, Darts(P12Faces)).edges == FirstEdges(Darts(P12Faces))
    ensures |ScanAll(20, Darts(P12Faces)).edges| == 30 == 20 + 12 - 2
  {
    P12HalfA();
    P12HalfB();
    P12HalvesApart();
    P12HalvesClosed();
    HalvesCertify(20, P12DartsA, P12DartsB);
    P12Darts();
    CertifiedTable(20, P12Faces, 30);
  }

  /** PolyhedronData.p12: the solid built and its edges computed; computeEdges does not throw. */
  method MakeP12(f: real) returns (ph: PolyhedronData)
    requires IsGoldenF(f)
    ensures fresh(ph)
    ensures ph.vertices == P12Vertices(f) && ph.faces == P12Faces
    ensures ph.edges == FirstEdges(Darts(P12Faces)) && |ph.edges| == 30
  {
    ph := new PolyhedronData(P12Vertices(f), P12Faces);
    var r := ph.ComputeEdges();
    P12Edges();
    assert r == Pass;
  }

  // ---- p20: the icosahedron ----

  /** The vertices of p20, with f = (sqrt(5) - 1) / 2. */
  function P20Vertices(f: real): (vs: seq<Vec3>)
    requires IsGoldenF(f)
    ensures |vs| == 12
  {
    [
      Vec3(0.0, 1.0, f), Vec3(0.0, 1.0, -f), Vec3(0.0, -1.0, f), Vec3(0.0, -1.0, -f),
      Vec3(-1.0, f, 0.0), Vec3(-1.0, -f, 0.0), Vec3(1.0, f, 0.0), Vec3(1.0, -f, 0.0),
      Vec3(-f, 0.0, 1.0), Vec3(f, 0.0, 1.0), Vec3(-f, 0.0, -1.0), Vec3(f, 0.0, -1.0)
    ]
  }

  const P20Faces: seq<Face> := [
    [0, 9, 8], [0, 6, 9], [0, 1, 6], [0, 4, 1], [0, 8, 4], [1, 11, 6], [1, 10, 11], [1, 4, 10],
    [4, 5, 10], [4, 8, 5], [6, 7, 9], [6, 11, 7], [5, 2, 3], [2, 7, 3], [2, 8, 9], [2, 5, 8],
    [2, 9, 7], [3, 11, 10], [3, 10, 5], [3, 7, 11]
  ]

  /** The darts of the first 10 faces of p20. */
  const P20DartsA: seq<Dart> := [
    Dart(8, 0), Dart(0, 9), Dart(9, 8), Dart(9, 0), Dart(0, 6), Dart(6, 9), Dart(6, 0),
    Dart(0, 1), Dart(1, 6), Dart(1, 0), Dart(0, 4), Dart(4, 1), Dart(4, 0), Dart(0, 8),
    Dart(8, 4), Dart(6, 1), Dart(1, 11), Dart(11, 6), Dart(11, 1), Dart(1, 10), Dart(10, 11),
    Dart(10, 1), Dart(1, 4), Dart(4, 10), Dart(10, 4), Dart(4, 5), Dart(5, 10), Dart(5, 4),
    Dart(4, 8), Dart(8, 5)
  ]

  /** The darts of the remaining faces of p20. */
  const P20DartsB: seq<Dart> := [
    Dart(9, 6), Dart(6, 7), Dart(7, 9), Dart(7, 6), Dart(6, 11), Dart(11, 7), Dart(3, 5),
    Dart(5, 2), Dart(2, 3), Dart(3, 2), Dart(2, 7), Dart(7, 3), Dart(9, 2), Dart(2, 8),
    Dart(8, 9), Dart(8, 2), Dart(2, 5), Dart(5, 8), Dart(7, 2), Dart(2, 9), Dart(9, 7),
    Dart(10, 3), Dart(3, 11), Dart(11, 10), Dart(5, 3), Dart(3, 10), Dart(10, 5), Dart(11, 3),
    Dart(3, 7), Dart(7, 11)
  ]

  lemma P20Prefix2()
    ensures Darts(P20Faces[..2]) == [Dart(8, 0), Dart(0, 9), Dart(9, 8), Dart(9, 0), Dart(0, 6), Dart(6, 9)]
  {
    assert P20Faces[..0] == [];
    assert Darts(P20Faces[..1]) == [Dart(8, 0), Dart(0, 9), Dart(9, 8)] by {
      DartsPrefixStep(P20Faces, 0);
      TriangleDarts(0, 9, 8);
    }
    DartsPrefixStep(P20Faces, 1);
    TriangleDarts(0, 6, 9);
  }

  lemma P20Prefix4()
    ensures Darts(P20Faces[..4]) == [Dart(8, 0), Dart(0, 9), Dart(9, 8), Dart(9, 0), Dart(0, 6), Dart(6, 9), Dart(6, 0), Dart(0, 1), Dart(1, 6), Dart(1, 0), Dart(0, 4), Dart(4, 1)]
  {
    P20Prefix2();
    assert Darts(P20Faces[..3]) == [Dart(8, 0), Dart(0, 9), Dart(9, 8), Dart(9, 0), Dart(0, 6), Dart(6, 9), Dart(6, 0), Dart(0, 1), Dart(1, 6)] by {
      DartsPrefixStep(P20Faces, 2);
      TriangleDarts(0, 1, 6);
    }
    DartsPrefixStep(P20Faces, 3);
    TriangleDarts(0, 4, 1);
  }

  lemma P20Prefix6()
    ensures Darts(P20Faces[..6]) == [Dart(8, 0), Dart(0, 9), Dart(9, 8), Dart(9, 0), Dart(0, 6), Dart(6, 9), Dart(6, 0), Dart(0, 1), Dart(1, 6), Dart(1, 0), Dart(0, 4), Dart(4, 1), Dart(4, 0), Dart(0, 8), Dart(8, 4), Dart(6, 1), Dart(1, 11), Dart(11, 6)]
  {
    P20Prefix4();
    assert Darts(P20Faces[..5]) == [Dart(8, 0), Dart(0, 9), Dart(9, 8), Dart(9, 0), Dart(0, 6), Dart(6, 9), Dart(6, 0), Dart(0, 1), Dart(1, 6), Dart(1, 0), Dart(0, 4), Dart(4, 1), Dart(4, 0), Dart(0, 8), Dart(8, 4)] by {
      DartsPrefixStep(P20Faces, 4);
      TriangleDarts(0, 8, 4);
    }
    DartsPrefixStep(P20Faces, 5);
    TriangleDarts(1, 11, 6);
  }

  lemma P20Prefix8()
    ensures Darts(P20Faces[..8]) == [Dart(8, 0), Dart(0, 9), Dart(9, 8), Dart(9, 0), Dart(0, 6), Dart(6, 9), Dart(6, 0), Dart(0, 1), Dart(1, 6), Dart(1, 0), Dart(0, 4), Dart(4, 1), Dart(4, 0), Dart(0, 8), Dart(8, 4), Dart(6, 1), Dart(1, 11), Dart(11, 6), Dart(11, 1), Dart(1, 10), Dart(10, 11), Dart(10, 1), Dart(1, 4), Dart(4, 10)]
  {
    P20Prefix6();
    assert Darts(P20Faces[..7]) == [Dart(8, 0), Dart(0, 9), Dart(9, 8), Dart(9, 0), Dart(0, 6), Dart(6, 9), Dart(6, 0), Dart(0, 1), Dart(1, 6), Dart(1, 0), Dart(0, 4), Dart(4, 1), Dart(4, 0), Dart(0, 8), Dart(8, 4), Dart(6, 1), Dart(1, 11), Dart(11, 6), Dart(11, 1), Dart(1, 10), Dart(10, 11)] by {
      DartsPrefixStep(P20Faces, 6);
      TriangleDarts(1, 10, 11);
    }
    DartsPrefixStep(P20Faces, 7);
    TriangleDarts(1, 4, 10);
  }

  lemma P20Prefix10()
    ensures Darts(P20Faces[..10]) == P20DartsA
  {
    P20Prefix8();
    assert Darts(P20Faces[..9]) == [Dart(8, 0), Dart(0, 9), Dart(9, 8), Dart(9, 0), Dart(0, 6), Dart(6, 9), Dart(6, 0), Dart(0, 1), Dart(1, 6), Dart(1, 0), Dart(0, 4), Dart(4, 1), Dart(4, 0), Dart(0, 8), Dart(8, 4), Dart(6, 1), Dart(1, 11), Dart(11, 6), Dart(11, 1), Dart(1, 10), Dart(10, 11), Dart(10, 1), Dart(1, 4), Dart(4, 10), Dart(10, 4), Dart(4, 5), Dart(5, 10)] by {
      DartsPrefixStep(P20Faces, 8);
      TriangleDarts(4, 5, 10);
    }
    DartsPrefixStep(P20Faces, 9);
    TriangleDarts(4, 8, 5);
  }

  lemma P20Prefix12()
    ensures Darts(P20Faces[..12]) == P20DartsA + [Dart(9, 6), Dart(6, 7), Dart(7, 9), Dart(7, 6), Dart(6, 11), Dart(11, 7)]
  {
    P20Prefix10();
    assert Darts(P20Faces[..11]) == P20DartsA + [Dart(9, 6), Dart(6, 7), Dart(7, 9)] by {
      DartsPrefixStep(P20Faces, 10);
      TriangleDarts(6, 7, 9);
    }
    DartsPrefixStep(P20Faces, 11);
    TriangleDarts(6, 11, 7);
  }

  lemma P20Prefix14()
    ensures Darts(P20Faces[..14]) == P20DartsA + [Dart(9, 6), Dart(6, 7), Dart(7, 9), Dart(7, 6), Dart(6, 11), Dart(11, 7), Dart(3, 5), Dart(5, 2), Dart(2, 3), Dart(3, 2), Dart(2, 7), Dart(7, 3)]
  {
    P20Prefix12();
    assert Darts(P20Faces[..13]) == P20DartsA + [Dart(9, 6), Dart(6, 7), Dart(7, 9), Dart(7, 6), Dart(6, 11), Dart(11, 7), Dart(3, 5), Dart(5, 2), Dart(2, 3)] by {
      DartsPrefixStep(P20Faces, 12);
      TriangleDarts(5, 2, 3);
    }
    DartsPrefixStep(P20Faces, 13);
    TriangleDarts(2, 7, 3);
  }

  lemma P20Prefix16()
    ensures Darts(P20Faces[..16]) == P20DartsA + [Dart(9, 6), Dart(6, 7), Dart(7, 9), Dart(7, 6), Dart(6, 11), Dart(11, 7), Dart(3, 5), Dart(5, 2), Dart(2, 3), Dart(3, 2), Dart(2, 7), Dart(7, 3), Dart(9, 2), Dart(2, 8), Dart(8, 9), Dart(8, 2), Dart(2, 5), Dart(5, 8)]
  {
    P20Prefix14();
    assert Darts(P20Faces[..15]) == P20DartsA + [Dart(9, 6), Dart(6, 7), Dart(7, 9), Dart(7, 6), Dart(6, 11), Dart(11, 7), Dart(3, 5), Dart(5, 2), Dart(2, 3), Dart(3, 2), Dart(2, 7), Dart(7, 3), Dart(9, 2), Dart(2, 8), Dart(8, 9)] by {
      DartsPrefixStep(P20Faces, 14);
      TriangleDarts(2, 8, 9);
    }
    DartsPrefixStep(P20Faces, 15);
    TriangleDarts(2, 5, 8);
  }

  lemma P20Prefix18()
    ensures Darts(P20Faces[..18]) == P20DartsA + [Dart(9, 6), Dart(6, 7), Dart(7, 9), Dart(7, 6), Dart(6, 11), Dart(11, 7), Dart(3, 5), Dart(5, 2), Dart(2, 3), Dart(3, 2), Dart(2, 7), Dart(7, 3), Dart(9, 2), Dart(2, 8), Dart(8, 9), Dart(8, 2), Dart(2, 5), Dart(5, 8), Dart(7, 2), Dart(2, 9), Dart(9, 7), Dart(10, 3), Dart(3, 11), Dart(11, 10)]
  {
    P20Prefix16();
    assert Darts(P20Faces[..17]) == P20DartsA + [Dart(9, 6), Dart(6, 7), Dart(7, 9), Dart(7, 6), Dart(6, 11), Dart(11, 7), Dart(3, 5), Dart(5, 2), Dart(2, 3), Dart(3, 2), Dart(2, 7), Dart(7, 3), Dart(9, 2), Dart(2, 8), Dart(8, 9), Dart(8, 2), Dart(2, 5), Dart(5, 8), Dart(7, 2), Dart(2, 9), Dart(9, 7)] by {
      DartsPrefixStep(P20Faces, 16);
      TriangleDarts(2, 9, 7);
    }
    DartsPrefixStep(P20Faces, 17);
    TriangleDarts(3, 11, 10);
  }

  lemma P20Prefix20()
    ensures Darts(P20Faces[..20]) == P20DartsA + P20DartsB
  {
    P20Prefix18();
    assert Darts(P20Faces[..19]) == P20DartsA + [Dart(9, 6), Dart(6, 7), Dart(7, 9), Dart(7, 6), Dart(6, 11), Dart(11, 7), Dart(3, 5), Dart(5, 2), Dart(2, 3), Dart(3, 2), Dart(2, 7), Dart(7, 3), Dart(9, 2), Dart(2, 8), Dart(8, 9), Dart(8, 2), Dart(2, 5), Dart(5, 8), Dart(7, 2), Dart(2, 9), Dart(9, 7), Dart(10, 3), Dart(3, 11), Dart(11, 10), Dart(5, 3), Dart(3, 10), Dart(10, 5)] by {
      DartsPrefixStep(P20Faces, 18);
      TriangleDarts(3, 10, 5);
    }
    DartsPrefixStep(P20Faces, 19);
    TriangleDarts(3, 7, 11);
  }

  /** The darts computeEdges walks on p20, in walk order. */
  lemma P20Darts()
    ensures Darts(P20Faces) == P20DartsA + P20DartsB
  {
    P20Prefix20();
    assert P20Faces[..20] == P20Faces;
  }

  lemma P20HalfA()
    ensures forall i | 0 <= i < |P20DartsA| :: P20DartsA[i].from < 12 && P20DartsA[i].to < 12 && P20DartsA[i].from != P20DartsA[i].to
    ensures forall i, j | 0 <= i < j < |P20DartsA| :: P20DartsA[i] != P20DartsA[j]
  {
    P20HalfALow();
    P20HalfAHigh();
    P20HalfAAcross();
    DistinctJoin(P20DartsA, 15);
  }

  lemma P20HalfB()
    ensures forall i | 0 <= i < |P20DartsB| :: P20DartsB[i].from < 12 && P20DartsB[i].to < 12 && P20DartsB[i].from != P20DartsB[i].to
    ensures forall i, j | 0 <= i < j < |P20DartsB| :: P20DartsB[i] != P20DartsB[j]
  {
    P20HalfBLow();
    P20HalfBHigh();
    P20HalfBAcross();
    DistinctJoin(P20DartsB, 15);
  }

  lemma P20HalfALow()
    ensures forall i, j | 0 <= i < j < 15 :: P20DartsA[i] != P20DartsA[j]
  {
  }

  lemma P20HalfAHigh()
    ensures forall i, j | 15 <= i < j < |P20DartsA| :: P20DartsA[i] != P20DartsA[j]
  {
  }

  lemma P20HalfAAcross()
    ensures forall i, j | 0 <= i < 15 <= j < |P20DartsA| :: P20DartsA[i] != P20DartsA[j]
  {
  }

  lemma P20HalfBLow()
    ensures forall i, j | 0 <= i < j < 15 :: P20DartsB[i] != P20DartsB[j]
  {
  }

  lemma P20HalfBHigh()
    ensures forall i, j | 15 <= i < j < |P20DartsB| :: P20DartsB[i] != P20DartsB[j]
  {
  }

  lemma P20HalfBAcross()
    ensures forall i, j | 0 <= i < 15 <= j < |P20DartsB| :: P20DartsB[i] != P20DartsB[j]
  {
  }

  lemma P20ApartLowLow()
    ensures forall i, j | 0 <= i < 15 && 0 <= j < 15 :: P20DartsA[i] != P20DartsB[j]
  {
  }

  lemma P20ApartLowHigh()
    ensures forall i, j | 0 <= i < 15 && 15 <= j < |P20DartsB| :: P20DartsA[i] != P20DartsB[j]
  {
  }

  lemma P20ApartHighLow()
    ensures forall i, j | 15 <= i < |P20DartsA| && 0 <= j < 15 :: P20DartsA[i] != P20DartsB[j]
  {
  }

  lemma P20ApartHighHigh()
    ensures forall i, j | 15 <= i < |P20DartsA| && 15 <= j < |P20DartsB| :: P20DartsA[i] != P20DartsB[j]
  {
  }

  lemma P20HalvesApart()
    ensures forall i, j | 0 <= i < |P20DartsA| && 0 <= j < |P20DartsB| :: P20DartsA[i] != P20DartsB[j]
  {
    P20ApartLowLow();
    P20ApartLowHigh();
    P20ApartHighLow();
    P20ApartHighHigh();
    ApartJoin(P20DartsA, P20DartsB, 15, 15);
  }

  lemma P20HalvesClosed()
    ensures forall i | 0 <= i < |P20DartsA| :: Reverse(P20DartsA[i]) in P20DartsA + P20DartsB
    ensures forall i | 0 <= i < |P20DartsB| :: Reverse(P20DartsB[i]) in P20DartsA + P20DartsB
  {
  }

  /** Every face of p20 has at least three vertices, all of them among its 12 vertices. */
  lemma P20FacesShape()
    ensures forall i | 0 <= i < |P20Faces| :: 3 <= |P20Faces[i]| && forall j | 0 <= j < |P20Faces[i]| :: P20Faces[i][j] < 12
  {
  }

  /** computeEdges on p20 does not throw and finds its 30 edges (12 vertices, 20 faces). */
  lemma P20Edges()
    ensures !ScanAll(12, Darts(P20Faces)).failed
    ensures ScanAll(12, Darts(P20Faces)).edges == FirstEdges(Darts(P20Faces))
    ensures |ScanAll(12, Darts(P20Faces)).edges| == 30 == 12 + 20 - 2
  {
    P20HalfA();
    P20HalfB();
    P20HalvesApart();
    P20HalvesClosed();
    HalvesCertify(12, P20DartsA, P20DartsB);
    P20Darts();
    CertifiedTable(12, P20Faces, 30);
  }

  /** PolyhedronData.p20: the solid built and its edges computed; computeEdges does not throw. */
  method MakeP20(f: real) returns (ph: PolyhedronData)
    requires IsGoldenF(f)
    ensures fresh(ph)
    ensures ph.vertices == P20Vertices(f) && ph.faces == P20Faces
    ensures ph.edges == FirstEdges(Darts(P20Faces)) && |ph.edges| == 30
  {
    ph := new PolyhedronData(P20Vertices(f), P20Faces);
    var r := ph.ComputeEdges();
    P20Edges();
    assert r == Pass;
  }

  // ---- pg20: the great icosahedron ----

  /** The vertices of pg20: the source lists the same twelve points as for p20. */
  function PG20Vertices(f: real): (vs: seq<Vec3>)
    requires IsGoldenF(f)
    ensures |vs| == 12
  {
    P20Vertices(f)
  }

  const PG20Faces: seq<Face> := [
    [0, 10, 2], [0, 2, 11], [0, 5, 7], [0, 11, 5], [0, 7, 10], [1, 3, 8], [1, 9, 3], [1, 7, 5],
    [1, 5, 9], [1, 8, 7], [2, 6, 4], [2, 4, 11], [2, 10, 6], [3, 4, 6], [3, 9, 4], [3, 6, 8],
    [4, 9, 11], [5, 11, 9], [6, 10, 8], [7, 8, 10]
  ]

  /** The darts of the first 10 faces of pg20. */
  const PG20DartsA: seq<Dart> := [
    Dart(2, 0), Dart(0, 10), Dart(10, 2), Dart(11, 0), Dart(0, 2), Dart(2, 11), Dart(7, 0),
    Dart(0, 5), Dart(5, 7), Dart(5, 0), Dart(0, 11), Dart(11, 5), Dart(10, 0), Dart(0, 7),
    Dart(7, 10), Dart(8, 1), Dart(1, 3), Dart(3, 8), Dart(3, 1), Dart(1, 9), Dart(9, 3),
    Dart(5, 1), Dart(1, 7), Dart(7, 5), Dart(9, 1), Dart(1, 5), Dart(5, 9), Dart(7, 1),
    Dart(1, 8), Dart(8, 7)
  ]

  /** The darts of the remaining faces of pg20. */
  const PG20DartsB: seq<Dart> := [
    Dart(4, 2), Dart(2, 6), Dart(6, 4), Dart(11, 2), Dart(2, 4), Dart(4, 11), Dart(6, 2),
    Dart(2, 10), Dart(10, 6), Dart(6, 3), Dart(3, 4), Dart(4, 6), Dart(4, 3), Dart(3, 9),
    Dart(9, 4), Dart(8, 3), Dart(3, 6), Dart(6, 8), Dart(11, 4), Dart(4, 9), Dart(9, 11),
    Dart(9, 5), Dart(5, 11), Dart(11, 9), Dart(8, 6), Dart(6, 10), Dart(10, 8), Dart(10, 7),
    Dart(7, 8), Dart(8, 10)
  ]

  lemma PG20Prefix2()
    ensures Darts(PG20Faces[..2]) == [Dart(2, 0), Dart(0, 10), Dart(10, 2), Dart(11, 0), Dart(0, 2), Dart(2, 11)]
  {
    assert PG20Faces[..0] == [];
    assert Darts(PG20Faces[..1]) == [Dart(2, 0), Dart(0, 10), Dart(10, 2)] by {
      DartsPrefixStep(PG20Faces, 0);
      TriangleDarts(0, 10, 2);
    }
    DartsPrefixStep(PG20Faces, 1);
    TriangleDarts(0, 2, 11);
  }

  lemma PG20Prefix4()
    ensures Darts(PG20Faces[..4]) == [Dart(2, 0), Dart(0, 10), Dart(10, 2), Dart(11, 0), Dart(0, 2), Dart(2, 11), Dart(7, 0), Dart(0, 5), Dart(5, 7), Dart(5, 0), Dart(0, 11), Dart(11, 5)]
  {
    PG20Prefix2();
    assert Darts(PG20Faces[..3]) == [Dart(2, 0), Dart(0, 10), Dart(10, 2), Dart(11, 0), Dart(0, 2), Dart(2, 11), Dart(7, 0), Dart(0, 5), Dart(5, 7)] by {
      DartsPrefixStep(PG20Faces, 2);
      TriangleDarts(0, 5, 7);
    }
    DartsPrefixStep(PG20Faces, 3);
    TriangleDarts(0, 11, 5);
  }

  lemma PG20Prefix6()
    ensures Darts(PG20Faces[..6]) == [Dart(2, 0), Dart(0, 10), Dart(10, 2), Dart(11, 0), Dart(0, 2), Dart(2, 11), Dart(7, 0), Dart(0, 5), Dart(5, 7), Dart(5, 0), Dart(0, 11), Dart(11, 5), Dart(10, 0), Dart(0, 7), Dart(7, 10), Dart(8, 1), Dart(1, 3), Dart(3, 8)]
  {
    PG20Prefix4();
    assert Darts(PG20Faces[..5]) == [Dart(2, 0), Dart(0, 10), Dart(10, 2), Dart(11, 0), Dart(0, 2), Dart(2, 11), Dart(7, 0), Dart(0, 5), Dart(5, 7), Dart(5, 0), Dart(0, 11), Dart(11, 5), Dart(10, 0), Dart(0, 7), Dart(7, 10)] by {
      DartsPrefixStep(PG20Faces, 4);
      TriangleDarts(0, 7, 10);
    }
    DartsPrefixStep(PG20Faces, 5);
    TriangleDarts(1, 3, 8);
  }

  lemma PG20Prefix8()
    ensures Darts(PG20Faces[..8]) == [Dart(2, 0), Dart(0, 10), Dart(10, 2), Dart(11, 0), Dart(0, 2), Dart(2, 11), Dart(7, 0), Dart(0, 5), Dart(5, 7), Dart(5, 0), Dart(0, 11), Dart(11, 5), Dart(10, 0), Dart(0, 7), Dart(7, 10), Dart(8, 1), Dart(1, 3), Dart(3, 8), Dart(3, 1), Dart(1, 9), Dart(9, 3), Dart(5, 1), Dart(1, 7), Dart(7, 5)]
  {
    PG20Prefix6();
    assert Darts(PG20Faces[..7]) == [Dart(2, 0), Dart(0, 10), Dart(10, 2), Dart(11, 0), Dart(0, 2), Dart(2, 11), Dart(7, 0), Dart(0, 5), Dart(5, 7), Dart(5, 0), Dart(0, 11), Dart(11, 5), Dart(10, 0), Dart(0, 7), Dart(7, 10), Dart(8, 1), Dart(1, 3), Dart(3, 8), Dart(3, 1), Dart(1, 9), Dart(9, 3)] by {
      DartsPrefixStep(PG20Faces, 6);
      TriangleDarts(1, 9, 3);
    }
    DartsPrefixStep(PG20Faces, 7);
    TriangleDarts(1, 7, 5);
  }

  lemma PG20Prefix10()
    ensures Darts(PG20Faces[..10]) == PG20DartsA
  {
    PG20Prefix8();
    assert Darts(PG20Faces[..9]) == [Dart(2, 0), Dart(0, 10), Dart(10, 2), Dart(11, 0), Dart(0, 2), Dart(2, 11), Dart(7, 0), Dart(0, 5), Dart(5, 7), Dart(5, 0), Dart(0, 11), Dart(11, 5), Dart(10, 0), Dart(0, 7), Dart(7, 10), Dart(8, 1), Dart(1, 3), Dart(3, 8), Dart(3, 1), Dart(1, 9), Dart(9, 3), Dart(5, 1), Dart(1, 7), Dart(7, 5), Dart(9, 1), Dart(1, 5), Dart(5, 9)] by {
      DartsPrefixStep(PG20Faces, 8);
      TriangleDarts(1, 5, 9);
    }
    DartsPrefixStep(PG20Faces, 9);
    TriangleDarts(1, 8, 7);
  }

  lemma PG20Prefix12()
    ensures Darts(PG20Faces[..12]) == PG20DartsA + [Dart(4, 2), Dart(2, 6), Dart(6, 4), Dart(11, 2), Dart(2, 4), Dart(4, 11)]
  {
    PG20Prefix10();
    assert Darts(PG20Faces[..11]) == PG20DartsA + [Dart(4, 2), Dart(2, 6), Dart(6, 4)] by {
      DartsPrefixStep(PG20Faces, 10);
      TriangleDarts(2, 6, 4);
    }
    DartsPrefixStep(PG20Faces, 11);
    TriangleDarts(2, 4, 11);
  }

  lemma PG20Prefix14()
    ensures Darts(PG20Faces[..14]) == PG20DartsA + [Dart(4, 2), Dart(2, 6), Dart(6, 4), Dart(11, 2), Dart(2, 4), Dart(4, 11), Dart(6, 2), Dart(2, 10), Dart(10, 6), Dart(6, 3), Dart(3, 4), Dart(4, 6)]
  {
    PG20Prefix12();
    assert Darts(PG20Faces[..13]) == PG20DartsA + [Dart(4, 2), Dart(2, 6), Dart(6, 4), Dart(11, 2), Dart(2, 4), Dart(4, 11), Dart(6, 2), Dart(2, 10), Dart(10, 6)] by {
      DartsPrefixStep(PG20Faces, 12);
      TriangleDarts(2, 10, 6);
    }
    DartsPrefixStep(PG20Faces, 13);
    TriangleDarts(3, 4, 6);
  }

  lemma PG20Prefix16()
    ensures Darts(PG20Faces[..16]) == PG20DartsA + [Dart(4, 2), Dart(2, 6), Dart(6, 4), Dart(11, 2), Dart(2, 4), Dart(4, 11), Dart(6, 2), Dart(2, 10), Dart(10, 6), Dart(6, 3), Dart(3, 4), Dart(4, 6), Dart(4, 3), Dart(3, 9), Dart(9, 4), Dart(8, 3), Dart(3, 6), Dart(6, 8)]
  {
    PG20Prefix14();
    assert Darts(PG20Faces[..15]) == PG20DartsA + [Dart(4, 2), Dart(2, 6), Dart(6, 4), Dart(11, 2), Dart(2, 4), Dart(4, 11), Dart(6, 2), Dart(2, 10), Dart(10, 6), Dart(6, 3), Dart(3, 4), Dart(4, 6), Dart(4, 3), Dart(3, 9), Dart(9, 4)] by {
      DartsPrefixStep(PG20Faces, 14);
      TriangleDarts(3, 9, 4);
    }
    DartsPrefixStep(PG20Faces, 15);
    TriangleDarts(3, 6, 8);
  }

  lemma PG20Prefix18()
    ensures Darts(PG20Faces[..18]) == PG20DartsA + [Dart(4, 2), Dart(2, 6), Dart(6, 4), Dart(11, 2), Dart(2, 4), Dart(4, 11), Dart(6, 2), Dart(2, 10), Dart(10, 6), Dart(6, 3), Dart(3, 4), Dart(4, 6), Dart(4, 3), Dart(3, 9), Dart(9, 4), Dart(8, 3), Dart(3, 6), Dart(6, 8), Dart(11, 4), Dart(4, 9), Dart(9, 11), Dart(9, 5), Dart(5, 11), Dart(11, 9)]
  {
    PG20Prefix16();
    assert Darts(PG20Faces[..17]) == PG20DartsA + [Dart(4, 2), Dart(2, 6), Dart(6, 4), Dart(11, 2), Dart(2, 4), Dart(4, 11), Dart(6, 2), Dart(2, 10), Dart(10, 6), Dart(6, 3), Dart(3, 4), Dart(4, 6), Dart(4, 3), Dart(3, 9), Dart(9, 4), Dart(8, 3), Dart(3, 6), Dart(6, 8), Dart(11, 4), Dart(4, 9), Dart(9, 11)] by {
      DartsPrefixStep(PG20Faces, 16);
      TriangleDarts(4, 9, 11);
    }
    DartsPrefixStep(PG20Faces, 17);
    TriangleDarts(5, 11, 9);
  }

  lemma PG20Prefix20()
    ensures Darts(PG20Faces[..20]) == PG20DartsA + PG20DartsB
  {
    PG20Prefix18();
    assert Darts(PG20Faces[..19]) == PG20DartsA + [Dart(4, 2), Dart(2, 6), Dart(6, 4), Dart(11, 2), Dart(2, 4), Dart(4, 11), Dart(6, 2), Dart(2, 10), Dart(10, 6), Dart(6, 3), Dart(3, 4), Dart(4, 6), Dart(4, 3), Dart(3, 9), Dart(9, 4), Dart(8, 3), Dart(3, 6), Dart(6, 8), Dart(11, 4), Dart(4, 9), Dart(9, 11), Dart(9, 5), Dart(5, 11), Dart(11, 9), Dart(8, 6), Dart(6, 10), Dart(10, 8)] by {
      DartsPrefixStep(PG20Faces, 18);
      TriangleDarts(6, 10, 8);
    }
    DartsPrefixStep(PG20Faces, 19);
    TriangleDarts(7, 8, 10);
  }

  /** The darts computeEdges walks on pg20, in walk order. */
  lemma PG20Darts()
    ensures Darts(PG20Faces) == PG20DartsA + PG20DartsB
  {
    PG20Prefix20();
    assert PG20Faces[..20] == PG20Faces;
  }

  lemma PG20HalfA()
    ensures forall i | 0 <= i < |PG20DartsA| :: PG20DartsA[i].from < 12 && PG20DartsA[i].to < 12 && PG20DartsA[i].from != PG20DartsA[i].to
    ensures forall i, j | 0 <= i < j < |PG20DartsA| :: PG20DartsA[i] != PG20DartsA[j]
  {
    PG20HalfALow();
    PG20HalfAHigh();
    PG20HalfAAcross();
    DistinctJoin(PG20DartsA, 15);
  }

  lemma PG20HalfB()
    ensures forall i | 0 <= i < |PG20DartsB| :: PG20DartsB[i].from < 12 && PG20DartsB[i].to < 12 && PG20DartsB[i].from != PG20DartsB[i].to
    ensures forall i, j | 0 <= i < j < |PG20DartsB| :: PG20DartsB[i] != PG20DartsB[j]
  {
    PG20HalfBLow();
    PG20HalfBHigh();
    PG20HalfBAcross();
    DistinctJoin(PG20DartsB, 15);
  }

  lemma PG20HalfALow()
    ensures forall i, j | 0 <= i < j < 15 :: PG20DartsA[i] != PG20DartsA[j]
  {
  }

  lemma PG20HalfAHigh()
    ensures forall i, j | 15 <= i < j < |PG20DartsA| :: PG20DartsA[i] != PG20DartsA[j]
  {
  }

  lemma PG20HalfAAcross()
    ensures forall i, j | 0 <= i < 15 <= j < |PG20DartsA| :: PG20DartsA[i] != PG20DartsA[j]
  {
  }

  lemma PG20HalfBLow()
    ensures forall i, j | 0 <= i < j < 15 :: PG20DartsB[i] != PG20DartsB[j]
  {
  }

  lemma PG20HalfBHigh()
    ensures forall i, j | 15 <= i < j < |PG20DartsB| :: PG20DartsB[i] != PG20DartsB[j]
  {
  }

  lemma PG20HalfBAcross()
    ensures forall i, j | 0 <= i < 15 <= j < |PG20DartsB| :: PG20DartsB[i] != PG20DartsB[j]
  {
  }

  lemma PG20ApartLowLow()
    ensures forall i, j | 0 <= i < 15 && 0 <= j < 15 :: PG20DartsA[i] != PG20DartsB[j]
  {
  }

  lemma PG20ApartLowHigh()
    ensures forall i, j | 0 <= i < 15 && 15 <= j < |PG20DartsB| :: PG20DartsA[i] != PG20DartsB[j]
  {
  }

  lemma PG20ApartHighLow()
    ensures forall i, j | 15 <= i < |PG20DartsA| && 0 <= j < 15 :: PG20DartsA[i] != PG20DartsB[j]
  {
  }

  lemma PG20ApartHighHigh()
    ensures forall i, j | 15 <= i < |PG20DartsA| && 15 <= j < |PG20DartsB| :: PG20DartsA[i] != PG20DartsB[j]
  {
  }

  lemma PG20HalvesApart()
    ensures forall i, j | 0 <= i < |PG20DartsA| && 0 <= j < |PG20DartsB| :: PG20DartsA[i] != PG20DartsB[j]
  {
    PG20ApartLowLow();
    PG20ApartLowHigh();
    PG20ApartHighLow();
    PG20ApartHighHigh();
    ApartJoin(PG20DartsA, PG20DartsB, 15, 15);
  }

  lemma PG20HalvesClosed()
    ensures forall i | 0 <= i < |PG20DartsA| :: Reverse(PG20DartsA[i]) in PG20DartsA + PG20DartsB
    ensures forall i | 0 <= i < |PG20DartsB| :: Reverse(PG20DartsB[i]) in PG20DartsA + PG20DartsB
  {
  }

  /** Every face of pg20 has at least three vertices, all of them among its 12 vertices. */
  lemma PG20FacesShape()
    ensures forall i | 0 <= i < |PG20Faces| :: 3 <= |PG20Faces[i]| && forall j | 0 <= j < |PG20Faces[i]| :: PG20Faces[i][j] < 12
  {
  }

  /** computeEdges on pg20 does not throw and finds its 30 edges (12 vertices, 20 faces). */
  lemma PG20Edges()
    ensures !ScanAll(12, Darts(PG20Faces)).failed
    ensures ScanAll(12, Darts(PG20Faces)).edges == FirstEdges(Darts(PG20Faces))
    ensures |ScanAll(12, Darts(PG20Faces)).edges| == 30 == 12 + 20 - 2
  {
    PG20HalfA();
    PG20HalfB();
    PG20HalvesApart();
    PG20HalvesClosed();
    HalvesCertify(12, PG20DartsA, PG20DartsB);
    PG20Darts();
    CertifiedTable(12, PG20Faces, 30);
  }

  /** PolyhedronData.pg20: the solid built and its edges computed; computeEdges does not throw. */
  method MakePG20(f: real) returns (ph: PolyhedronData)
    requires IsGoldenF(f)
    ensures fresh(ph)
    ensures ph.vertices == PG20Vertices(f) && ph.faces == PG20Faces
    ensures ph.edges == FirstEdges(Darts(PG20Faces)) && |ph.edges| == 30
  {
    ph := new PolyhedronData(PG20Vertices(f), PG20Faces);
    var r := ph.ComputeEdges();
    PG20Edges();
    assert r == Pass;
  }

}
