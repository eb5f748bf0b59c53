/**
 * GeometricModel (gutil.js): a polyhedron drawn as spheres (vertices),
 * cylinders (edges) and a triangle mesh (faces).
 *
 * Vertex and edge meshes live in two pools. Slot 0 of each pool is the
 * prototype mesh ("<name>-dot", "<name>-edge"); every other slot j holds an
 * instance of it named "<name>-dot-inst-<j>" or "<name>-edge-inst-<j>".
 * Between beginUpdate and endUpdate, addVertex and addEdge reuse the pool
 * slots in order and create instances only when the pool is too short;
 * endUpdate disposes of the instances that were not reused, keeping at
 * least the prototype. Faces are collected as flat coordinate and index
 * lists, each polygon split into a fan of triangles around its first
 * vertex.
 *
 * Rendering state is reduced to what the class itself decides: where each
 * handle is placed, which meshes are visible, which handles were disposed
 * of, and the vertex data handed to the face mesh.
 */
module GeometricModels {
  import opened Wrappers
  import opened Geometry

  /** Where a mesh handle has been put: nowhere yet, as a sphere, or as a cylinder from start to end. */
  datatype Placement =
    | Unplaced
    | Sphere(center: Vec3, radius: real)
    | Cylinder(start: Vec3, end: Vec3, radius: real)

  /** A mesh handle: the prototype (slot 0) or the instance created as the slot-th element of its pool. */
  datatype Handle = Handle(slot: nat, place: Placement)

  /** The object `faces` that beginUpdate resets and addFace fills. */
  datatype FaceBuffer = FaceBuffer(positions: seq<real>, indices: seq<nat>, vCount: nat, fCount: nat)

  const EmptyBuffer: FaceBuffer := FaceBuffer([], [], 0, 0)

  const BadInstanceCount: string := "Bad! (1)"
  const StrayInstances: string := "Bad! (2)"

  /** Every handle sits in the slot it was created for. */
  predicate Numbered(pool: seq<Handle>)
  {
    forall j | 0 <= j < |pool| :: pool[j].slot == j
  }

  /** The flat coordinate list x0, y0, z0, x1, y1, z1, ... of pts. */
  function Coordinates(pts: seq<Vec3>): seq<real>
  {
    if pts == [] then []
    else
      var p := pts[|pts| - 1];
      Coordinates(pts[..|pts| - 1]) + [p.x, p.y, p.z]
  }

  /** Coordinate c (0 = x, 1 = y, 2 = z) of p. */
  function Component(p: Vec3, c: nat): real
    requires c < 3
  {
    if c == 0 then p.x else if c == 1 then p.y else p.z
  }

  /** Coordinates holds three entries per point, point after point. */
  lemma {:induction false} CoordinatesAt(pts: seq<Vec3>)
    ensures |Coordinates(pts)| == 3 * |pts|
    ensures forall i, c | 0 <= i < |pts| && 0 <= c < 3 :: Coordinates(pts)[3 * i + c] == Component(pts[i], c)
  {
    if pts != [] {
      var init := pts[..|pts| - 1];
      CoordinatesAt(init);
      forall i, c | 0 <= i < |pts| && 0 <= c < 3
        ensures Coordinates(pts)[3 * i + c] == Component(pts[i], c)
      {
        if i < |init| {
          assert pts[i] == init[i];
          assert Coordinates(pts)[3 * i + c] == Coordinates(init)[3 * i + c];
        }
      }
    }
  }

  lemma CoordinatesSnoc(pts: seq<Vec3>, p: Vec3)
    ensures Coordinates(pts + [p]) == Coordinates(pts) + [p.x, p.y, p.z]
  {
    assert (pts + [p])[..|pts|] == pts;
  }

  /** The indices addFace pushes for a polygon of m points whose first point has index k. */
  function Fan(k: nat, m: nat): seq<nat>
  {
    if m <= 2 then [] else Fan(k, m - 1) + [k, k + m - 2, k + m - 1]
  }

  /**
   * Fan splits the polygon k, k+1, ..., k+m-1 into the m-2 triangles
   * (k, k+t+1, k+t+2), all of whose corners are points of the polygon.
   */
  lemma {:induction false} FanTriangles(k: nat, m: nat)
    ensures |Fan(k, m)| == if m <= 2 then 0 else 3 * (m - 2)
    ensures forall t | 0 <= t < m - 2 ::
      Fan(k, m)[3 * t] == k && Fan(k, m)[3 * t + 1] == k + t + 1 && Fan(k, m)[3 * t + 2] == k + t + 2
    ensures forall j | 0 <= j < |Fan(k, m)| :: k <= Fan(k, m)[j] < k + m
  {
    if m > 2 {
      FanTriangles(k, m - 1);
      var prev := Fan(k, m - 1);
      forall t | 0 <= t < m - 2
        ensures Fan(k, m)[3 * t] == k && Fan(k, m)[3 * t + 1] == k + t + 1 && Fan(k, m)[3 * t + 2] == k + t + 2
      {
        if t < m - 3 {
          assert Fan(k, m)[3 * t] == prev[3 * t];
          assert Fan(k, m)[3 * t + 1] == prev[3 * t + 1];
          assert Fan(k, m)[3 * t + 2] == prev[3 * t + 2];
        }
      }
      forall j | 0 <= j < |Fan(k, m)| ensures k <= Fan(k, m)[j] < k + m {
        if j < |prev| {
          assert Fan(k, m)[j] == prev[j];
        }
      }
    }
  }

  lemma FanStep(k: nat, i: nat)
    requires i >= 2
    ensures Fan(k, i + 1) == Fan(k, i) + [k, k + i - 1, k + i]
  {
  }

  /** The face data is consistent: three coordinates per point, every index names a point. */
  predicate BufferValid(fb: FaceBuffer)
  {
    |fb.positions| == 3 * fb.vCount &&
    |fb.indices| % 3 == 0 &&
    forall j | 0 <= j < |fb.indices| :: fb.indices[j] < fb.vCount
  }

  /** The buffer after addFace(pts). */
  function WithFace(fb: FaceBuffer, pts: seq<Vec3>): FaceBuffer
  {
    FaceBuffer(fb.positions + Coordinates(pts), fb.indices + Fan(fb.vCount, |pts|), fb.vCount + |pts|, fb.fCount + 1)
  }

  /** addFace keeps the face data consistent. */
  lemma WithFaceValid(fb: FaceBuffer, pts: seq<Vec3>)
    requires BufferValid(fb)
    ensures BufferValid(WithFace(fb, pts))
  {
    CoordinatesAt(pts);
    FanTriangles(fb.vCount, |pts|);
    var nb := WithFace(fb, pts);
    forall j | 0 <= j < |nb.indices| ensures nb.indices[j] < nb.vCount {
      if j >= |fb.indices| {
        assert nb.indices[j] == Fan(fb.vCount, |pts|)[j - |fb.indices|];
      }
    }
  }

  /**
   * The growth loop of addVertex and addEdge: while the pool has no slot
   * i, append a new instance numbered by the pool's length.
   */
  method GrowPool(pool: seq<Handle>, i: nat) returns (r: seq<Handle>)
    ensures |r| == Max(|pool|, i + 1)
    ensures r[..|pool|] == pool
    ensures forall j | |pool| <= j < |r| :: r[j] == Handle(j, Unplaced)
  {
    r := pool;
    while |r| <= i
      invariant |pool| <= |r| <= Max(|pool|, i + 1)
      invariant r[..|pool|] == pool
      invariant forall j | |pool| <= j < |r| :: r[j] == Handle(j, Unplaced)
      decreases i + 1 - |r|
    {
      r := r + [Handle(|r|, Unplaced)];
    }
  }

  /** How many handles the trimming loop of endUpdate keeps: the used ones, but never the prototype. */
  function KeptLength(len: nat, used: nat): nat
  {
    if len == 0 then 0 else Max(Min(used, len), 1)
  }

  /** The handles of pool from slot `from` on, last first: the order in which endUpdate disposes of them. */
  function DisposalOrder(pool: seq<Handle>, from: nat): seq<Handle>
    requires from <= |pool|
  {
    seq(|pool| - from, j requires 0 <= j < |pool| - from => pool[|pool| - 1 - j])
  }

  /**
   * The trimming loop of endUpdate: dispose of the handles from the last
   * down to slot `used` (slot 0 is never disposed of), then cut the pool.
   * Returns the kept pool and the disposed handles in disposal order.
   */
  method TrimPool(pool: seq<Handle>, used: nat) returns (kept: seq<Handle>, dropped: seq<Handle>)
    ensures |kept| == KeptLength(|pool|, used)
    ensures kept == pool[..|kept|]
    ensures dropped == DisposalOrder(pool, |kept|)
  {
    var i := |pool| - 1;
    dropped := [];
    while i >= used && i > 0
      invariant -1 <= i < |pool|
      invariant |pool| > 0 ==> 0 <= i
      invariant i + 1 >= KeptLength(|pool|, used)
      invariant |dropped| == |pool| - 1 - i
      invariant forall j | 0 <= j < |dropped| :: dropped[j] == pool[|pool| - 1 - j]
    {
      dropped := dropped + [pool[i]];
      i := i - 1;
    }
    kept := pool;
    if i + 1 < |pool| {
      kept := pool[..i + 1];
    }
  }

  /** The first |centers| handles of pool are spheres of radius r around centers, in order. */
  predicate Spheres(pool: seq<Handle>, centers: seq<Vec3>, r: real)
  {
    |centers| <= |pool| && forall j | 0 <= j < |centers| :: pool[j] == Handle(j, Sphere(centers[j], r))
  }

  /** The first |ends| handles of pool are cylinders of radius r between the given end points, in order. */
  predicate Cylinders(pool: seq<Handle>, ends: seq<(Vec3, Vec3)>, r: real)
  {
    |ends| <= |pool| && forall j | 0 <= j < |ends| :: pool[j] == Handle(j, Cylinder(ends[j].0, ends[j].1, r))
  }

  /** Cutting a pool after its placed spheres keeps them. */
  lemma SpheresPrefix(pool: seq<Handle>, k: nat, centers: seq<Vec3>, r: real)
    requires Spheres(pool, centers, r) && |centers| <= k <= |pool|
    ensures Spheres(pool[..k], centers, r)
  {
  }

  /** Cutting a pool after its placed cylinders keeps them. */
  lemma CylindersPrefix(pool: seq<Handle>, k: nat, ends: seq<(Vec3, Vec3)>, r: real)
    requires Cylinders(pool, ends, r) && |ends| <= k <= |pool|
    ensures Cylinders(pool[..k], ends, r)
  {
  }

  /** A pool cut at its own length disposes of nothing. */
  lemma DisposalNone(pool: seq<Handle>)
    ensures DisposalOrder(pool, |pool|) == []
  {
  }

  /**
   * After n handles of a pool were placed: the pool was grown to n slots
   * if it was shorter, and every slot from n on is still the old handle.
   */
  predicate ReusedFrom(pool: seq<Handle>, before: seq<Handle>, n: nat)
  {
    |pool| == Max(|before|, n) &&
    forall j | n <= j < |pool| :: j < |before| && pool[j] == before[j]
  }

  /**
   * What endUpdate disposes of after n handles were placed in a pool that
   * held `before` at beginUpdate: the old handles from slot max(n, 1) on,
   * last first. A pool whose old handles were all reused disposes of none.
   */
  lemma ReusedDisposal(pool: seq<Handle>, before: seq<Handle>, n: nat)
    requires 1 <= |before| && ReusedFrom(pool, before, n)
    ensures Max(n, 1) <= |pool|
    ensures DisposalOrder(pool, Max(n, 1)) == DisposalOrder(before, Min(|before|, Max(n, 1)))
  {
    var k := Max(n, 1);
    if k < |before| {
      assert |pool| == |before|;
      forall j | 0 <= j < |pool| - k ensures DisposalOrder(pool, k)[j] == DisposalOrder(before, k)[j] {
        assert pool[|pool| - 1 - j] == before[|pool| - 1 - j];
      }
    }
  }

  /** addFace's `pts.forEach(p => positions.push(p.x, p.y, p.z))`. */
  method PushCoordinates(positions: seq<real>, pts: seq<Vec3>) returns (r: seq<real>)
    ensures r == positions + Coordinates(pts)
  {
    r := positions;
    for j := 0 to |pts|
      invariant r == positions + Coordinates(pts[..j])
    {
      CoordinatesSnoc(pts[..j], pts[j]);
      assert pts[..j + 1] == pts[..j] + [pts[j]];
      r := r + [pts[j].x, pts[j].y, pts[j].z];
    }
    assert pts[..|pts|] == pts;
  }

  /** addFace's `for(let i=2; i<m; i++) indices.push(k, k+i-1, k+i)`. */
  method PushFan(indices: seq<nat>, k: nat, m: nat) returns (r: seq<nat>)
    ensures r == indices + Fan(k, m)
  {
    r := indices;
    var i := 2;
    while i < m
      invariant 2 <= i <= Max(m, 2)
      invariant r == indices + Fan(k, i)
    {
      FanStep(k, i);
      r := r + [k, k + i - 1, k + i];
      i := i + 1;
    }
  }

  class GeometricModel {
    /** The vertex pool; vertices[0] is the prototype sphere `dot`. */
    var vertices: seq<Handle>
    var usedVertices: nat
    /** The edge pool; edges[0] is the prototype cylinder `edge`. */
    var edges: seq<Handle>
    var usedEdges: nat
    /** The face data; None until the first beginUpdate, as `this.faces` is undefined until then. */
    var faces: Option<FaceBuffer>
    /** The visibility of the prototypes `dot` and `edge` and of `facesMesh`. */
    var dotVisible: bool
    var edgeVisible: bool
    var facesVisible: bool
    /** The face data last applied to `facesMesh`, if any. */
    var shown: Option<FaceBuffer>
    /** Every handle disposed of so far, in order. */
    var disposed: seq<Handle>

    /** What every public method keeps: both pools hold their prototype, the used slots exist, the face data is consistent. */
    predicate Valid()
      reads this
    {
      1 <= |vertices| && usedVertices <= |vertices| && Numbered(vertices) &&
      1 <= |edges| && usedEdges <= |edges| && Numbered(edges) &&
      (faces.Some? ==> BufferValid(faces.value))
    }

    /** The first |centers| vertex handles are spheres of radius r around centers, in order. */
    predicate SpheresAt(centers: seq<Vec3>, r: real)
      reads this
    {
      Spheres(vertices, centers, r)
    }

    /** The first |ends| edge handles are cylinders of radius r between the given end points, in order. */
    predicate CylindersAt(ends: seq<(Vec3, Vec3)>, r: real)
      reads this
    {
      Cylinders(edges, ends, r)
    }

    /** The constructor: one hidden prototype per pool, nothing used yet. */
    constructor ()
      ensures Valid()
      ensures vertices == [Handle(0, Unplaced)] && usedVertices == 0 && !dotVisible
      ensures edges == [Handle(0, Unplaced)] && usedEdges == 0 && !edgeVisible
      ensures faces.None? && shown.None? && facesVisible && disposed == []
    {
      vertices := [Handle(0, Unplaced)];
      usedVertices := 0;
      dotVisible := false;
      edges := [Handle(0, Unplaced)];
      usedEdges := 0;
      edgeVisible := false;
      faces := None;
      facesVisible := true;
      shown := None;
      disposed := [];
    }

    /** beginUpdate: forget the used handles and start a new, empty face buffer. */
    method BeginUpdate()
      requires Valid()
      modifies this`usedVertices, this`usedEdges, this`faces
      ensures Valid()
      ensures usedVertices == 0 && usedEdges == 0 && faces == Some(EmptyBuffer)
    {
      usedVertices := 0;
      usedEdges := 0;
      faces := Some(EmptyBuffer);
    }

    /** addVertex: place the next vertex handle, creating it when the pool is too short. */
    method AddVertex(pos: Vec3, r: real) returns (i: nat)
      requires Valid()
      modifies this`vertices, this`usedVertices
      ensures Valid()
      ensures i == old(usedVertices) && usedVertices == i + 1
      ensures |vertices| == Max(|old(vertices)|, i + 1)
      ensures vertices[i] == Handle(i, Sphere(pos, r))
      ensures forall j | 0 <= j < |vertices| && j != i ::
        vertices[j] == if j < |old(vertices)| then old(vertices)[j] else Handle(j, Unplaced)
    {
      i := usedVertices;
      usedVertices := usedVertices + 1;
      var pool := GrowPool(vertices, i);
      vertices := pool[i := Handle(i, Sphere(pos, r))];
    }

    /** addEdge: place the next edge handle as a cylinder from pa to pb. */
    method AddEdge(pa: Vec3, pb: Vec3, r: real) returns (i: nat)
      requires Valid()
      modifies this`edges, this`usedEdges
      ensures Valid()
      ensures i == old(usedEdges) && usedEdges == i + 1
      ensures |edges| == Max(|old(edges)|, i + 1)
      ensures edges[i] == Handle(i, Cylinder(pa, pb, r))
      ensures forall j | 0 <= j < |edges| && j != i ::
        edges[j] == if j < |old(edges)| then old(edges)[j] else Handle(j, Unplaced)
    {
      i := usedEdges;
      usedEdges := usedEdges + 1;
      var pool := GrowPool(edges, i);
      edges := pool[i := Handle(i, Cylinder(pa, pb, r))];
    }

    /** addFace: append the polygon's coordinates and its fan of triangles. */
    method AddFace(pts: seq<Vec3>)
      requires Valid() && faces.Some?
      modifies this`faces
      ensures Valid()
      ensures faces == Some(WithFace(old(faces.value), pts))
    {
      var fb := faces.value;
      var positions := PushCoordinates(fb.positions, pts);
      var indices := PushFan(fb.indices, fb.vCount, |pts|);
      WithFaceValid(fb, pts);
      faces := Some(FaceBuffer(positions, indices, fb.vCount + |pts|, fb.fCount + 1));
    }

    /**
     * endUpdate: show the prototypes only when used, dispose of the unused
     * handles, hand the face data to the face mesh, and check that the
     * scene holds one vertex instance per used vertex after the first.
     * The check never fails.
     */
    method EndUpdate() returns (res: Outcome)
      requires Valid() && faces.Some?
      modifies this`vertices, this`edges, this`dotVisible, this`edgeVisible, this`facesVisible, this`shown, this`disposed
      ensures Valid()
      ensures dotVisible == (usedVertices != 0) && edgeVisible == (usedEdges != 0)
      ensures vertices == old(vertices)[..Max(usedVertices, 1)]
      ensures edges == old(edges)[..Max(usedEdges, 1)]
      ensures disposed == old(disposed) + DisposalOrder(old(vertices), |vertices|) + DisposalOrder(old(edges), |edges|)
      ensures facesVisible == (faces.value.fCount != 0)
      ensures shown == if faces.value.fCount == 0 then old(shown) else faces
      ensures res == Pass
    {
      dotVisible := usedVertices != 0;
      var keptV, droppedV := TrimPool(vertices, usedVertices);
      vertices := keptV;
      edgeVisible := usedEdges != 0;
      var keptE, droppedE := TrimPool(edges, usedEdges);
      edges := keptE;
      disposed := disposed + droppedV + droppedE;
      if faces.value.fCount == 0 {
        facesVisible := false;
      } else {
        shown := faces;
        facesVisible := true;
      }
      // The scene meshes named "<name>-dot-inst...": the live vertex instances.
      var q := |vertices| - 1;
      if usedVertices > 0 {
        if usedVertices - 1 != q {
          return Fail(BadInstanceCount);
        }
      } else {
        if q != 0 {
          return Fail(StrayInstances);
        }
      }
      return Pass;
    }
  }
}
