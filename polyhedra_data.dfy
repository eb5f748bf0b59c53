/**
 * The combinatorial description of a solid (polyhedra-data.js): vertices,
 * faces given as cyclic lists of vertex indices, and the edge list that
 * `computeEdges` derives from the faces.
 *
 * `computeEdges` walks every face, including the wrap from its last vertex
 * back to its first. Each step of that walk goes from the previous vertex
 * `b` to the current vertex `a`; this model calls such a step a dart. The
 * step is looked up in a table `tb` under the integer key `a*n+b`
 * (n = number of vertices). The first dart along an undirected edge marks
 * its own key with 1 and the key of the opposite dart with -1, and pushes
 * `[a, b]` to `edges`. A later dart whose key holds -1 is accepted silently.
 * A later dart whose key holds anything else throws "Bad face orientation".
 *
 * `ScanAll` is that walk written as a fold over the darts. The class
 * method `ComputeEdges` runs the walk with loops and is proved to end in
 * the state `ScanAll` describes. Module EdgeScan says what that state means.
 */
module PolyhedraData {
  import opened Wrappers
  import opened Geometry

  /** A face: the cyclic list of its vertex indices. */
  type Face = seq<nat>

  /** One step of a face walk, from the previous vertex to the current one. */
  datatype Dart = Dart(from: nat, to: nat)

  /** An entry `[a, b]` of `edges`: a is the current vertex, b the previous one. */
  datatype Edge = Edge(a: nat, b: nat)

  /** The state of the walk: the table tb, the edges pushed so far, and whether it threw. */
  datatype Scan = Scan(tb: map<int, int>, edges: seq<Edge>, failed: bool)

  const BadOrientation: string := "Bad face orientation"

  /** The darts of one face in walk order: last -> first, then first -> second, ... */
  function FaceDarts(f: Face): seq<Dart>
  {
    seq(|f|, i requires 0 <= i < |f| => Dart(if i == 0 then f[|f| - 1] else f[i - 1], f[i]))
  }

  /** The darts of all faces, face after face. */
  function Darts(faces: seq<Face>): seq<Dart>
  {
    if faces == [] then [] else Darts(faces[..|faces| - 1]) + FaceDarts(faces[|faces| - 1])
  }

  /** The table key of the step into `a` from `b`, as the source computes it. */
  function Key(n: int, a: int, b: int): int { a * n + b }

  /**
   * One iteration of the inner loop of computeEdges. A walk that has
   * thrown stays as it is; otherwise the step throws exactly when the
   * table holds something other than -1 under the dart's key, and the
   * edge list grows by at most the one entry [to, from].
   */
  function ScanStep(n: int, s: Scan, d: Dart): (r: Scan)
    ensures s.failed ==> r == s
    ensures r.failed <==> s.failed || (Key(n, d.to, d.from) in s.tb && s.tb[Key(n, d.to, d.from)] != -1)
    ensures r.edges == s.edges || r.edges == s.edges + [Edge(d.to, d.from)]
    ensures r.edges != s.edges <==> !s.failed && Key(n, d.to, d.from) !in s.tb
  {
    if s.failed then s
    else
      var id := Key(n, d.to, d.from);
      if id !in s.tb then
        Scan(s.tb[id := 1][Key(n, d.from, d.to) := -1], s.edges + [Edge(d.to, d.from)], false)
      else if s.tb[id] != -1 then
        s.(failed := true)
      else
        s
  }

  /** The walk over a whole dart sequence, starting from an empty table and no edges. */
  function ScanAll(n: int, ds: seq<Dart>): Scan
  {
    if ds == [] then Scan(map[], [], false) else ScanStep(n, ScanAll(n, ds[..|ds| - 1]), ds[|ds| - 1])
  }

  lemma ScanAllSnoc(n: int, ds: seq<Dart>, d: Dart)
    ensures ScanAll(n, ds + [d]) == ScanStep(n, ScanAll(n, ds), d)
  {
    assert (ds + [d])[..|ds|] == ds;
  }

  /** Once the walk has thrown, nothing after it changes its state. */
  lemma {:induction false} ScanAbsorbs(n: int, ds: seq<Dart>, rest: seq<Dart>)
    requires ScanAll(n, ds).failed
    ensures ScanAll(n, ds + rest) == ScanAll(n, ds)
    decreases |rest|
  {
    if rest == [] {
      assert ds + rest == ds;
    } else {
      var init := rest[..|rest| - 1];
      assert ds + rest == (ds + init) + [rest[|rest| - 1]];
      ScanAbsorbs(n, ds, init);
      ScanAllSnoc(n, ds + init, rest[|rest| - 1]);
    }
  }

  lemma {:induction false} DartsAppend(a: seq<Face>, b: seq<Face>)
    ensures Darts(a + b) == Darts(a) + Darts(b)
    decreases |b|
  {
    if b == [] {
      assert a + b == a;
    } else {
      var init := b[..|b| - 1];
      assert a + b == (a + init) + [b[|b| - 1]];
      assert (a + b)[..|a + b| - 1] == a + init;
      DartsAppend(a, init);
      assert b[..|b| - 1] == init;
    }
  }

  lemma DartsSingle(f: Face)
    ensures Darts([f]) == FaceDarts(f)
  {
    assert [f][..0] == [];
  }

  /** Darts(faces[..i + 1]) continues Darts(faces[..i]) with the darts of face i. */
  lemma DartsPrefixStep(faces: seq<Face>, i: nat)
    requires i < |faces|
    ensures Darts(faces[..i + 1]) == Darts(faces[..i]) + FaceDarts(faces[i])
  {
    assert faces[..i + 1] == faces[..i] + [faces[i]];
    DartsAppend(faces[..i], [faces[i]]);
    DartsSingle(faces[i]);
  }

  lemma DartsAround(faces: seq<Face>, i: nat)
    requires i < |faces|
    ensures Darts(faces) == Darts(faces[..i + 1]) + Darts(faces[i + 1..])
  {
    assert faces == faces[..i + 1] + faces[i + 1..];
    DartsAppend(faces[..i + 1], faces[i + 1..]);
  }

  /**
   * One step of the walk over a face: dart j goes from b to a, and the
   * outcome is spelled out with the key arithmetic of the source.
   */
  lemma FaceStep(n: int, before: seq<Dart>, fd: seq<Dart>, j: nat, a: nat, b: nat, tb: map<int, int>, edges: seq<Edge>)
    requires j < |fd| && fd[j] == Dart(b, a)
    requires ScanAll(n, before + fd[..j]) == Scan(tb, edges, false)
    ensures ScanAll(n, before + fd[..j + 1]) ==
      if a * n + b !in tb then Scan(tb[a * n + b := 1][b * n + a := -1], edges + [Edge(a, b)], false)
      else if tb[a * n + b] != -1 then Scan(tb, edges, true)
      else Scan(tb, edges, false)
  {
    assert before + fd[..j + 1] == (before + fd[..j]) + [fd[j]];
    ScanAllSnoc(n, before + fd[..j], fd[j]);
  }

  lemma SplitAfter(before: seq<Dart>, fd: seq<Dart>, j: nat)
    requires j < |fd|
    ensures before + fd == (before + fd[..j + 1]) + fd[j + 1..]
  {
    assert fd == fd[..j + 1] + fd[j + 1..];
  }

  /** A throw at dart j of a face is the state at the end of the face. */
  lemma FaceThrow(n: int, before: seq<Dart>, fd: seq<Dart>, j: nat)
    requires j < |fd| && ScanAll(n, before + fd[..j + 1]).failed
    ensures ScanAll(n, before + fd) == ScanAll(n, before + fd[..j + 1])
  {
    SplitAfter(before, fd, j);
    ScanAbsorbs(n, before + fd[..j + 1], fd[j + 1..]);
  }

  /**
   * The callback that computeEdges runs for one face f: it continues the
   * walk of the darts `before` with the darts of f, stopping at a throw.
   */
  method ScanFace(n: int, f: Face, tb0: map<int, int>, edges0: seq<Edge>, ghost before: seq<Dart>)
    returns (tb: map<int, int>, edges: seq<Edge>, failed: bool)
    requires ScanAll(n, before) == Scan(tb0, edges0, false)
    ensures ScanAll(n, before + FaceDarts(f)) == Scan(tb, edges, failed)
  {
    tb, edges, failed := tb0, edges0, false;
    ghost var fd := FaceDarts(f);
    assert before + fd[..0] == before;
    if |f| == 0 {
      assert fd == [];
      return;
    }
    var b := f[|f| - 1];
    var j := 0;
    while j < |f|
      invariant 0 <= j <= |f|
      invariant b == if j == 0 then f[|f| - 1] else f[j - 1]
      invariant ScanAll(n, before + fd[..j]) == Scan(tb, edges, false)
    {
      var a := f[j];
      assert fd[j] == Dart(b, a);
      FaceStep(n, before, fd, j, a, b, tb, edges);
      var id := a * n + b;
      if id !in tb {
        tb := tb[id := 1][b * n + a := -1];
        edges := edges + [Edge(a, b)];
      } else if tb[id] != -1 {
        failed := true;
        FaceThrow(n, before, fd, j);
        return;
      }
      b := a;
      j := j + 1;
    }
    assert fd[..j] == fd;
  }

  class PolyhedronData {
    var vertices: seq<Vec3>
    var faces: seq<Face>
    var edges: seq<Edge>

    /** `new PolyhedronData()` followed by the assignments of `vertices` and `faces`. */
    constructor (vertices: seq<Vec3>, faces: seq<Face>)
      ensures this.vertices == vertices && this.faces == faces && edges == []
    {
      this.vertices := vertices;
      this.faces := faces;
      edges := [];
    }

    /**
     * computeEdges: resets `edges`, walks every face and fills `edges`; the
     * result is Fail(BadOrientation) where the source throws. The new
     * `edges` depends only on the number of vertices and on the faces, so a
     * second call yields the same list.
     */
    method ComputeEdges() returns (r: Outcome)
      modifies this`edges
      ensures var s := ScanAll(|vertices|, Darts(faces));
              edges == s.edges && r == (if s.failed then Fail(BadOrientation) else Pass)
    {
      var n := |vertices|;
      var tb: map<int, int> := map[];
      edges := [];
      var i := 0;
      while i < |faces|
        invariant 0 <= i <= |faces|
        invariant ScanAll(n, Darts(faces[..i])) == Scan(tb, edges, false)
      {
        DartsPrefixStep(faces, i);
        var failed;
        tb, edges, failed := ScanFace(n, faces[i], tb, edges, Darts(faces[..i]));
        if failed {
          DartsAround(faces, i);
          ScanAbsorbs(n, Darts(faces[..i + 1]), Darts(faces[i + 1..]));
          return Fail(BadOrientation);
        }
        i := i + 1;
      }
      assert faces[..i] == faces;
      return Pass;
    }
  }
}
