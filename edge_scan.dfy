/**
 * What the walk of computeEdges computes, stated without the table.
 *
 * For every undirected edge {x, y} the walk only cares about the FIRST dart
 * along it (`FirstAlong`). That dart decides the edge's entry in `edges`
 * and both table entries of the edge; every later dart along the same edge
 * is checked against them. The walk throws exactly when some later dart
 * repeats the direction of that first dart (`SameDirectionRepeat`). Both
 * facts hold when every vertex index is below the number of vertices
 * (`InRange`), which keeps the keys `a*n+b` of different darts apart.
 */
module EdgeScan {
  import opened Wrappers
  import opened PolyhedraData

  /** The dart d runs along the undirected edge {x, y}, in either direction. */
  predicate Joins(d: Dart, x: nat, y: nat)
  {
    (d.from == x && d.to == y) || (d.from == y && d.to == x)
  }

  function Reverse(d: Dart): Dart { Dart(d.to, d.from) }

  /** The first dart of ds along the undirected edge {x, y}, if there is one. */
  function FirstAlong(ds: seq<Dart>, x: nat, y: nat): (r: Option<Dart>)
    ensures r.Some? ==> Joins(r.value, x, y)
  {
    if ds == [] then None
    else
      var prev := FirstAlong(ds[..|ds| - 1], x, y);
      if prev.Some? then prev
      else if Joins(ds[|ds| - 1], x, y) then Some(ds[|ds| - 1])
      else None
  }

  lemma FirstAlongSnoc(init: seq<Dart>, d: Dart, x: nat, y: nat)
    ensures FirstAlong(init + [d], x, y) ==
      if FirstAlong(init, x, y).Some? then FirstAlong(init, x, y)
      else if Joins(d, x, y) then Some(d)
      else None
  {
    assert (init + [d])[..|init|] == init;
  }

  /**
   * FirstAlong finds the dart at the least position along {x, y}, and finds
   * none exactly when no dart runs along {x, y}.
   */
  lemma {:induction false} FirstAlongFirst(ds: seq<Dart>, x: nat, y: nat)
    ensures FirstAlong(ds, x, y).None? <==> forall i | 0 <= i < |ds| :: !Joins(ds[i], x, y)
    ensures FirstAlong(ds, x, y).Some? ==>
      exists k | 0 <= k < |ds| :: ds[k] == FirstAlong(ds, x, y).value &&
        forall i | 0 <= i < k :: !Joins(ds[i], x, y)
  {
    if ds != [] {
      var init := ds[..|ds| - 1];
      var d := ds[|ds| - 1];
      assert ds == init + [d];
      FirstAlongFirst(init, x, y);
      FirstAlongSnoc(init, d, x, y);
      if FirstAlong(init, x, y).Some? {
        var k :| 0 <= k < |init| && init[k] == FirstAlong(init, x, y).value &&
          forall i | 0 <= i < k :: !Joins(init[i], x, y);
        assert ds[k] == init[k];
        assert forall i | 0 <= i < k :: ds[i] == init[i];
      } else {
        assert forall i | 0 <= i < |init| :: ds[i] == init[i];
      }
    }
  }

  lemma {:induction false} FirstAlongSymmetric(ds: seq<Dart>, x: nat, y: nat)
    ensures FirstAlong(ds, x, y) == FirstAlong(ds, y, x)
  {
    if ds != [] {
      FirstAlongSymmetric(ds[..|ds| - 1], x, y);
      FirstAlongSnoc(ds[..|ds| - 1], ds[|ds| - 1], x, y);
      FirstAlongSnoc(ds[..|ds| - 1], ds[|ds| - 1], y, x);
      assert ds == ds[..|ds| - 1] + [ds[|ds| - 1]];
    }
  }

  /** Any two names of the same undirected edge give the same first dart. */
  lemma FirstAlongSameEdge(ds: seq<Dart>, d: Dart, x: nat, y: nat)
    requires Joins(d, x, y)
    ensures FirstAlong(ds, x, y) == FirstAlong(ds, d.from, d.to)
  {
    FirstAlongSymmetric(ds, x, y);
  }

  /** Appending darts never changes a first dart that already exists. */
  lemma {:induction false} FirstAlongPrefix(ds: seq<Dart>, rest: seq<Dart>, x: nat, y: nat)
    requires FirstAlong(ds, x, y).Some?
    ensures FirstAlong(ds + rest, x, y) == FirstAlong(ds, x, y)
    decreases |rest|
  {
    if rest == [] {
      assert ds + rest == ds;
    } else {
      var init := rest[..|rest| - 1];
      assert ds + rest == (ds + init) + [rest[|rest| - 1]];
      FirstAlongPrefix(ds, init, x, y);
      FirstAlongSnoc(ds + init, rest[|rest| - 1], x, y);
    }
  }

  /** Every vertex index of every dart is below n. */
  predicate InRange(n: nat, ds: seq<Dart>)
  {
    forall i | 0 <= i < |ds| :: ds[i].from < n && ds[i].to < n
  }

  /** The value the table holds under a key; 0 stands for "no entry". */
  function Mark(tb: map<int, int>, id: int): int
  {
    if id in tb then tb[id] else 0
  }

  /**
   * The entry the walk over ds leaves under Key(n, x, y), the key of the
   * dart from y to x: none before any dart along {x, y}; 1 when the first
   * such dart went from y to x and x != y; -1 otherwise.
   */
  function Expected(ds: seq<Dart>, x: nat, y: nat): int
  {
    match FirstAlong(ds, x, y)
    case None => 0
    case Some(d) => if d == Dart(y, x) && x != y then 1 else -1
  }

  predicate TableMatches(n: nat, ds: seq<Dart>, tb: map<int, int>)
  {
    (forall id | id in tb :: tb[id] == 1 || tb[id] == -1) &&
    (forall x: nat, y: nat | x < n && y < n :: Mark(tb, Key(n, x, y)) == Expected(ds, x, y))
  }

  /** The edges list computeEdges builds: [to, from] of the first dart along each edge, in walk order. */
  function FirstEdges(ds: seq<Dart>): seq<Edge>
  {
    if ds == [] then []
    else
      var init := ds[..|ds| - 1];
      var d := ds[|ds| - 1];
      FirstEdges(init) + (if FirstAlong(init, d.from, d.to).None? then [Edge(d.to, d.from)] else [])
  }

  lemma FirstEdgesSnoc(init: seq<Dart>, d: Dart)
    ensures FirstEdges(init + [d]) ==
      FirstEdges(init) + (if FirstAlong(init, d.from, d.to).None? then [Edge(d.to, d.from)] else [])
  {
    assert (init + [d])[..|init|] == init;
  }

  /** Dart k repeats the direction of the first dart along its edge, and is no self-loop. */
  predicate SameDirectionRepeat(ds: seq<Dart>, k: nat)
    requires k < |ds|
  {
    ds[k].from != ds[k].to && FirstAlong(ds[..k], ds[k].from, ds[k].to) == Some(ds[k])
  }

  lemma MulAtLeast(k: nat, n: nat)
    requires k >= 1
    ensures k * n >= n
  {
  }

  /** Below n, the key a*n+b determines a and b. */
  lemma KeyInjective(n: nat, a: nat, b: nat, c: nat, d: nat)
    requires b < n && d < n
    requires Key(n, a, b) == Key(n, c, d)
    ensures a == c && b == d
  {
    if a < c {
      assert c * n == a * n + (c - a) * n;
      MulAtLeast(c - a, n);
      assert false;
    } else if c < a {
      assert a * n == c * n + (a - c) * n;
      MulAtLeast(a - c, n);
      assert false;
    }
  }

  /** The table entry under Key(n, x, y) after the first dart d along a new edge. */
  lemma TableAfterNewAt(n: nat, init: seq<Dart>, d: Dart, tb: map<int, int>, x: nat, y: nat)
    requires d.from < n && d.to < n && x < n && y < n
    requires TableMatches(n, init, tb)
    requires FirstAlong(init, d.from, d.to).None?
    ensures Mark(tb[Key(n, d.to, d.from) := 1][Key(n, d.from, d.to) := -1], Key(n, x, y)) == Expected(init + [d], x, y)
  {
    var id := Key(n, d.to, d.from);
    var rid := Key(n, d.from, d.to);
    var k := Key(n, x, y);
    FirstAlongSnoc(init, d, x, y);
    if k == rid {
      KeyInjective(n, x, y, d.from, d.to);
      assert FirstAlong(init + [d], x, y) == Some(d);
    } else if k == id {
      KeyInjective(n, x, y, d.to, d.from);
      FirstAlongSymmetric(init, d.from, d.to);
      assert FirstAlong(init + [d], x, y) == Some(Dart(y, x));
    } else {
      assert !Joins(d, x, y);
      assert Expected(init + [d], x, y) == Expected(init, x, y);
    }
  }

  /** The first dart along a new edge writes 1 under its key and -1 under the opposite key. */
  lemma TableAfterNew(n: nat, init: seq<Dart>, d: Dart, tb: map<int, int>)
    requires d.from < n && d.to < n
    requires TableMatches(n, init, tb)
    requires FirstAlong(init, d.from, d.to).None?
    ensures TableMatches(n, init + [d], tb[Key(n, d.to, d.from) := 1][Key(n, d.from, d.to) := -1])
  {
    forall x: nat, y: nat | x < n && y < n
      ensures Mark(tb[Key(n, d.to, d.from) := 1][Key(n, d.from, d.to) := -1], Key(n, x, y)) == Expected(init + [d], x, y)
    {
      TableAfterNewAt(n, init, d, tb, x, y);
    }
  }

  /** A later dart along a known edge leaves the expected table as it was. */
  lemma TableAfterOld(n: nat, init: seq<Dart>, d: Dart, tb: map<int, int>)
    requires TableMatches(n, init, tb)
    requires FirstAlong(init, d.from, d.to).Some?
    ensures TableMatches(n, init + [d], tb)
  {
    forall x: nat, y: nat | x < n && y < n
      ensures Expected(init + [d], x, y) == Expected(init, x, y)
    {
      FirstAlongSnoc(init, d, x, y);
      if Joins(d, x, y) {
        FirstAlongSameEdge(init, d, x, y);
      }
    }
  }

  /**
   * A walk that has not thrown leaves the table described by Expected and
   * the edge list FirstEdges.
   */
  lemma {:induction false} ScanAgrees(n: nat, ds: seq<Dart>)
    requires InRange(n, ds)
    requires !ScanAll(n, ds).failed
    ensures TableMatches(n, ds, ScanAll(n, ds).tb)
    ensures ScanAll(n, ds).edges == FirstEdges(ds)
  {
    if ds != [] {
      var init := ds[..|ds| - 1];
      var d := ds[|ds| - 1];
      assert ds == init + [d];
      ScanAllSnoc(n, init, d);
      FirstEdgesSnoc(init, d);
      var s := ScanAll(n, init);
      assert !s.failed;
      assert InRange(n, init);
      ScanAgrees(n, init);
      assert d.from < n && d.to < n;
      FirstAlongSymmetric(init, d.from, d.to);
      assert Mark(s.tb, Key(n, d.to, d.from)) == Expected(init, d.to, d.from);
      if FirstAlong(init, d.from, d.to).None? {
        TableAfterNew(n, init, d, s.tb);
      } else {
        TableAfterOld(n, init, d, s.tb);
      }
    }
  }

  /**
   * The walk throws ("Bad face orientation") exactly when some dart repeats
   * the direction of the first dart along its edge.
   */
  lemma {:induction false} ScanFailsIff(n: nat, ds: seq<Dart>)
    requires InRange(n, ds)
    ensures ScanAll(n, ds).failed <==> exists k | 0 <= k < |ds| :: SameDirectionRepeat(ds, k)
  {
    if ds != [] {
      var init := ds[..|ds| - 1];
      var d := ds[|ds| - 1];
      assert ds == init + [d];
      ScanAllSnoc(n, init, d);
      assert InRange(n, init);
      ScanFailsIff(n, init);
      forall k | 0 <= k < |init|
        ensures SameDirectionRepeat(ds, k) == SameDirectionRepeat(init, k)
      {
        assert ds[..k] == init[..k];
      }
      assert ds[..|init|] == init;
      if !ScanAll(n, init).failed {
        ScanAgrees(n, init);
        var s := ScanAll(n, init);
        FirstAlongSymmetric(init, d.from, d.to);
        assert d.to < n && d.from < n;
        assert Mark(s.tb, Key(n, d.to, d.from)) == Expected(init, d.to, d.from);
        assert ScanAll(n, ds).failed <==> SameDirectionRepeat(ds, |init|);
      }
    }
  }

  /**
   * The walk only rejects a dart that repeats the first direction: a dart
   * against it is accepted however often it occurs.
   */
  lemma ReversedRepeatAccepted()
    ensures !ScanAll(2, [Dart(0, 1), Dart(1, 0), Dart(1, 0)]).failed
    ensures ScanAll(2, [Dart(0, 1), Dart(1, 0), Dart(0, 1)]).failed
  {
    var s1 := ScanAll(2, [Dart(0, 1)]);
    ScanAllSnoc(2, [], Dart(0, 1));
    assert [] + [Dart(0, 1)] == [Dart(0, 1)];
    assert s1.tb == map[2 := 1, 1 := -1];
    ScanAllSnoc(2, [Dart(0, 1)], Dart(1, 0));
    var s2 := ScanAll(2, [Dart(0, 1), Dart(1, 0)]);
    assert s2 == s1;
    ScanAllSnoc(2, [Dart(0, 1), Dart(1, 0)], Dart(1, 0));
    ScanAllSnoc(2, [Dart(0, 1), Dart(1, 0)], Dart(0, 1));
  }

  /** No two positions of ds hold the same dart. */
  predicate Distinct(ds: seq<Dart>)
  {
    forall i, j | 0 <= i < j < |ds| :: ds[i] != ds[j]
  }

  /** A sequence of pairwise distinct darts never makes the walk throw. */
  lemma DistinctNeverFails(n: nat, ds: seq<Dart>)
    requires InRange(n, ds) && Distinct(ds)
    ensures !ScanAll(n, ds).failed
    ensures ScanAll(n, ds).edges == FirstEdges(ds)
  {
    forall k | 0 <= k < |ds| ensures !SameDirectionRepeat(ds, k) {
      FirstAlongFirst(ds[..k], ds[k].from, ds[k].to);
    }
    ScanFailsIff(n, ds);
    ScanAgrees(n, ds);
  }

  /** The two edges name the same undirected edge. */
  predicate SameEdge(e: Edge, f: Edge)
  {
    Joins(Dart(e.a, e.b), f.a, f.b)
  }

  /** Faces whose vertex indices are below n give darts in range. */
  lemma {:induction false} DartsInRange(n: nat, faces: seq<Face>)
    requires forall i, j | 0 <= i < |faces| && 0 <= j < |faces[i]| :: faces[i][j] < n
    ensures InRange(n, Darts(faces))
  {
    if faces != [] {
      var init := faces[..|faces| - 1];
      var f := faces[|faces| - 1];
      forall i, j | 0 <= i < |init| && 0 <= j < |init[i]| ensures init[i][j] < n {
        assert init[i] == faces[i];
      }
      DartsInRange(n, init);
      var fd := FaceDarts(f);
      var ds := Darts(faces);
      assert ds == Darts(init) + fd;
      forall k | 0 <= k < |ds| ensures ds[k].from < n && ds[k].to < n {
        if k >= |Darts(init)| {
          var t := k - |Darts(init)|;
          assert ds[k] == fd[t];
          assert fd[t].to == f[t];
        }
      }
    }
  }

  /**
   * Every entry [a, b] that computeEdges pushes for darts in range names
   * two vertices: both indices are below n.
   */
  lemma FirstEdgesInRange(n: nat, ds: seq<Dart>)
    requires InRange(n, ds)
    ensures forall i | 0 <= i < |FirstEdges(ds)| :: FirstEdges(ds)[i].a < n && FirstEdges(ds)[i].b < n
  {
    var es := FirstEdges(ds);
    FirstEdgesSound(ds);
    forall i | 0 <= i < |es| ensures es[i].a < n && es[i].b < n {
      FirstAlongFirst(ds, es[i].a, es[i].b);
      var k :| 0 <= k < |ds| && ds[k] == Dart(es[i].b, es[i].a);
    }
  }

  /** Each entry of FirstEdges is [to, from] of the first dart along it. */
  lemma {:induction false} FirstEdgesSound(ds: seq<Dart>)
    ensures forall i | 0 <= i < |FirstEdges(ds)| ::
      FirstAlong(ds, FirstEdges(ds)[i].a, FirstEdges(ds)[i].b) == Some(Dart(FirstEdges(ds)[i].b, FirstEdges(ds)[i].a))
  {
    if ds != [] {
      var init := ds[..|ds| - 1];
      var d := ds[|ds| - 1];
      assert ds == init + [d];
      FirstEdgesSnoc(init, d);
      FirstEdgesSound(init);
      var es := FirstEdges(ds);
      var old_es := FirstEdges(init);
      forall i | 0 <= i < |es|
        ensures FirstAlong(ds, es[i].a, es[i].b) == Some(Dart(es[i].b, es[i].a))
      {
        FirstAlongSnoc(init, d, es[i].a, es[i].b);
        if i < |old_es| {
          assert es[i] == old_es[i];
        } else {
          FirstAlongSymmetric(init, d.from, d.to);
        }
      }
    }
  }

  /** No undirected edge appears twice in FirstEdges. */
  lemma {:induction false} FirstEdgesUnique(ds: seq<Dart>)
    ensures forall i, j | 0 <= i < j < |FirstEdges(ds)| :: !SameEdge(FirstEdges(ds)[i], FirstEdges(ds)[j])
  {
    if ds != [] {
      var init := ds[..|ds| - 1];
      var d := ds[|ds| - 1];
      assert ds == init + [d];
      FirstEdgesSnoc(init, d);
      FirstEdgesUnique(init);
      FirstEdgesSound(init);
      var es := FirstEdges(ds);
      var old_es := FirstEdges(init);
      forall i, j | 0 <= i < j < |es|
        ensures !SameEdge(es[i], es[j])
      {
        assert es[i] == old_es[i];
        if j >= |old_es| {
          if SameEdge(es[i], es[j]) {
            FirstAlongSameEdge(init, Dart(es[i].a, es[i].b), d.to, d.from);
            FirstAlongSymmetric(init, d.from, d.to);
            assert false;
          }
        } else {
          assert es[j] == old_es[j];
        }
      }
    }
  }

  /** Dart d runs along some entry of es. */
  predicate AlongSome(d: Dart, es: seq<Edge>)
  {
    exists j | 0 <= j < |es| :: Joins(d, es[j].a, es[j].b)
  }

  /** Every dart of ds lies along some entry of es. */
  predicate Covered(ds: seq<Dart>, es: seq<Edge>)
  {
    forall k | 0 <= k < |ds| :: AlongSome(ds[k], es)
  }

  /** Every dart of ds lies along some entry of FirstEdges. */
  lemma {:induction false} FirstEdgesCover(ds: seq<Dart>)
    ensures Covered(ds, FirstEdges(ds))
  {
    if ds != [] {
      var init := ds[..|ds| - 1];
      var d := ds[|ds| - 1];
      assert ds == init + [d];
      FirstEdgesSnoc(init, d);
      FirstEdgesCover(init);
      var es := FirstEdges(ds);
      var old_es := FirstEdges(init);
      forall k | 0 <= k < |ds|
        ensures AlongSome(ds[k], es)
      {
        if k < |init| {
          assert ds[k] == init[k];
          var i :| 0 <= i < |old_es| && Joins(init[k], old_es[i].a, old_es[i].b);
          assert es[i] == old_es[i];
        } else if FirstAlong(init, d.from, d.to).None? {
          assert es[|old_es|] == Edge(d.to, d.from);
        } else {
          FirstAlongFirst(init, d.from, d.to);
          var k' :| 0 <= k' < |init| && init[k'] == FirstAlong(init, d.from, d.to).value;
          var i :| 0 <= i < |old_es| && Joins(init[k'], old_es[i].a, old_es[i].b);
          assert es[i] == old_es[i];
        }
      }
    }
  }

  /** Both darts of every edge of es. */
  function EdgeDarts(es: seq<Edge>): set<Dart>
  {
    (set i | 0 <= i < |es| :: Dart(es[i].a, es[i].b)) + (set i | 0 <= i < |es| :: Dart(es[i].b, es[i].a))
  }

  lemma EdgeDartsSnoc(init: seq<Edge>, e: Edge)
    ensures EdgeDarts(init + [e]) == EdgeDarts(init) + {Dart(e.a, e.b), Dart(e.b, e.a)}
  {
    var es := init + [e];
    forall x | x in EdgeDarts(es) ensures x in EdgeDarts(init) + {Dart(e.a, e.b), Dart(e.b, e.a)} {
      var i :| 0 <= i < |es| && (x == Dart(es[i].a, es[i].b) || x == Dart(es[i].b, es[i].a));
      if i < |init| { assert es[i] == init[i]; }
    }
    forall x | x in EdgeDarts(init) ensures x in EdgeDarts(es) {
      var i :| 0 <= i < |init| && (x == Dart(init[i].a, init[i].b) || x == Dart(init[i].b, init[i].a));
      assert init[i] == es[i];
    }
    assert es[|init|] == e;
  }

  /** The darts of edges that all differ from e do not run along e. */
  lemma EdgeDartsApart(init: seq<Edge>, e: Edge)
    requires forall i | 0 <= i < |init| :: !SameEdge(init[i], e)
    ensures EdgeDarts(init) !! {Dart(e.a, e.b), Dart(e.b, e.a)}
  {
    forall x | x in EdgeDarts(init) ensures x != Dart(e.a, e.b) && x != Dart(e.b, e.a) {
      var i :| 0 <= i < |init| && (x == Dart(init[i].a, init[i].b) || x == Dart(init[i].b, init[i].a));
      assert !SameEdge(init[i], e);
    }
  }

  /** Edges that are no self-loops and pairwise different have twice as many darts. */
  lemma {:induction false} EdgeDartsCount(es: seq<Edge>)
    requires forall i | 0 <= i < |es| :: es[i].a != es[i].b
    requires forall i, j | 0 <= i < j < |es| :: !SameEdge(es[i], es[j])
    ensures |EdgeDarts(es)| == 2 * |es|
  {
    if es != [] {
      var init := es[..|es| - 1];
      var e := es[|es| - 1];
      assert es == init + [e];
      assert forall i | 0 <= i < |init| :: init[i] == es[i];
      EdgeDartsCount(init);
      EdgeDartsSnoc(init, e);
      forall i | 0 <= i < |init| ensures !SameEdge(init[i], e) {
        assert !SameEdge(es[i], es[|es| - 1]);
      }
      EdgeDartsApart(init, e);
      assert |{Dart(e.a, e.b), Dart(e.b, e.a)}| == 2;
    }
  }

  /** The set of darts of ds. */
  function DartSet(ds: seq<Dart>): set<Dart>
  {
    set i | 0 <= i < |ds| :: ds[i]
  }

  lemma {:induction false} DistinctDartSet(ds: seq<Dart>)
    requires Distinct(ds)
    ensures |DartSet(ds)| == |ds|
  {
    if ds != [] {
      var init := ds[..|ds| - 1];
      var d := ds[|ds| - 1];
      DistinctDartSet(init);
      assert DartSet(ds) == DartSet(init) + {d} by {
        forall x | x in DartSet(ds) ensures x in DartSet(init) + {d} {
          var i :| 0 <= i < |ds| && ds[i] == x;
          if i < |init| { assert init[i] == x; }
        }
        forall x | x in DartSet(init) ensures x in DartSet(ds) {
          var i :| 0 <= i < |init| && init[i] == x;
          assert ds[i] == x;
        }
      }
      assert d !in DartSet(init) by {
        forall i | 0 <= i < |init| ensures init[i] != d {
          assert init[i] == ds[i];
        }
      }
    }
  }

  /** No dart of ds goes from a vertex to itself. */
  predicate NoLoops(ds: seq<Dart>)
  {
    forall i | 0 <= i < |ds| :: ds[i].from != ds[i].to
  }

  /** Every dart of ds has its reverse in ds: the faces close up into a surface. */
  predicate Closed(ds: seq<Dart>)
  {
    forall i | 0 <= i < |ds| :: Reverse(ds[i]) in ds
  }

  /** On a closed surface the darts of FirstEdges are exactly the darts walked. */
  lemma FirstEdgesDarts(ds: seq<Dart>)
    requires Closed(ds)
    ensures EdgeDarts(FirstEdges(ds)) == DartSet(ds)
  {
    var es := FirstEdges(ds);
    FirstEdgesSound(ds);
    FirstEdgesCover(ds);
    forall x | x in EdgeDarts(es) ensures x in DartSet(ds) {
      var i :| 0 <= i < |es| && (x == Dart(es[i].a, es[i].b) || x == Dart(es[i].b, es[i].a));
      FirstAlongFirst(ds, es[i].a, es[i].b);
      var k :| 0 <= k < |ds| && ds[k] == Dart(es[i].b, es[i].a);
      assert Reverse(ds[k]) in ds;
    }
    forall x | x in DartSet(ds) ensures x in EdgeDarts(es) {
      var k :| 0 <= k < |ds| && ds[k] == x;
      var i :| 0 <= i < |es| && Joins(ds[k], es[i].a, es[i].b);
    }
  }

  /**
   * On a closed surface whose faces are consistently oriented (every
   * dart occurs once and its reverse occurs too), FirstEdges holds every
   * undirected edge exactly once: its length is half the number of darts.
   */
  lemma ClosedSurfaceCount(ds: seq<Dart>)
    requires Distinct(ds) && NoLoops(ds) && Closed(ds)
    ensures 2 * |FirstEdges(ds)| == |ds|
  {
    var es := FirstEdges(ds);
    FirstEdgesSound(ds);
    FirstEdgesUnique(ds);
    forall i | 0 <= i < |es| ensures es[i].a != es[i].b {
      FirstAlongFirst(ds, es[i].a, es[i].b);
    }
    EdgeDartsCount(es);
    DistinctDartSet(ds);
    FirstEdgesDarts(ds);
  }
}
