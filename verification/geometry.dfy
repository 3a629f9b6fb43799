/**
 The wireframe of the letter "K" drawn by the viewer (main.py, `create_box` and
 `get_k_geometry`). The glyph is three eight-vertex, twelve-edge prisms: the
 vertical stick and the two slanted legs. Blocks are appended one after another
 and each block's edge indices are shifted by the number of vertices collected
 before it.

 Coordinates are `real`: the model is exact where the source uses Python floats
 and finally a float32 array.
 */
module Geometry {

  /** A vertex in object-local coordinates (x, y, z). */
  type Point = (real, real, real)

  /** A drawn segment: two indices into a vertex list. */
  type Edge = (nat, nat)

  /** A vertex list together with the segments drawn between its vertices. */
  datatype Wireframe = Wireframe(vertices: seq<Point>, edges: seq<Edge>)

  /** Every endpoint of every edge in `es` lies in [lo, hi). */
  predicate EdgesWithin(es: seq<Edge>, lo: nat, hi: nat) {
    forall e :: e in es ==> lo <= e.0 < hi && lo <= e.1 < hi
  }

  /** Every edge refers to a vertex that exists. */
  predicate WellFormed(w: Wireframe) {
    EdgesWithin(w.edges, 0, |w.vertices|)
  }

  /** The point `p` moved by `dz` along the z axis. */
  function LiftZ(p: Point, dz: real): Point {
    (p.0, p.1, p.2 + dz)
  }

  /** Every point of `ps` moved by `dz` along the z axis, in order. */
  function LiftAll(ps: seq<Point>, dz: real): (r: seq<Point>)
    ensures |r| == |ps|
    ensures forall i :: 0 <= i < |ps| ==> r[i].0 == ps[i].0 && r[i].1 == ps[i].1 && r[i].2 - ps[i].2 == dz
  {
    seq(|ps|, i requires 0 <= i < |ps| => LiftZ(ps[i], dz))
  }

  /**
   Eight vertices forming a prism of depth `depth` along z: vertices 0..3 are
   the front face and vertices 4..7 the same face lifted by `depth`.
   */
  predicate SlabVertices(vs: seq<Point>, depth: real) {
    |vs| == 8 && vs[4..] == LiftAll(vs[..4], depth)
  }

  /**
   The twelve edges of a prism whose vertices 0..3 are the front face and
   4..7 the back face, in the same order: front ring, back ring, connectors.
   */
  const PrismEdges: seq<Edge> :=
    [ (0, 1), (1, 2), (2, 3), (3, 0),
      (4, 5), (5, 6), (6, 7), (7, 4),
      (0, 4), (1, 5), (2, 6), (3, 7) ]

  /** Two points that differ in at most one coordinate: a segment parallel to an axis. */
  predicate AxisParallel(p: Point, q: Point) {
    (p.0 == q.0 && p.1 == q.1) || (p.0 == q.0 && p.2 == q.2) || (p.1 == q.1 && p.2 == q.2)
  }

  /**
   An axis-aligned box with corner `origin` and extent `size` = (w, h, d)
   (main.py, `create_box`).
   */
  function CreateBox(origin: Point, size: Point): (r: Wireframe)
    ensures |r.vertices| == 8 && |r.edges| == 12
    ensures EdgesWithin(r.edges, 0, 8)
    ensures SlabVertices(r.vertices, size.2)
    ensures r.vertices[0] == origin
    ensures r.vertices[6] == (origin.0 + size.0, origin.1 + size.1, origin.2 + size.2)
  {
    var (x, y, z) := origin;
    var (w, h, d) := size;
    var vertices := [
      (x, y, z), (x + w, y, z), (x + w, y + h, z), (x, y + h, z),
      (x, y, z + d), (x + w, y, z + d), (x + w, y + h, z + d), (x, y + h, z + d)
    ];
    assert vertices[4..] == LiftAll(vertices[..4], d);
    PrismEdgesWithin();
    Wireframe(vertices, PrismEdges)
  }

  /** The prism edge list only refers to vertices 0..7. */
  lemma PrismEdgesWithin()
    ensures EdgesWithin(PrismEdges, 0, 8)
  {
    forall e | e in PrismEdges
      ensures 0 <= e.0 < 8 && 0 <= e.1 < 8
    {
      var j :| 0 <= j < 12 && PrismEdges[j] == e;
    }
  }

  /** Every edge of a box is parallel to one of the coordinate axes. */
  lemma BoxEdgesAxisParallel(origin: Point, size: Point)
    ensures forall e :: e in CreateBox(origin, size).edges ==>
      AxisParallel(CreateBox(origin, size).vertices[e.0], CreateBox(origin, size).vertices[e.1])
  {
    var box := CreateBox(origin, size);
    var vs := box.vertices;
    forall e | e in box.edges
      ensures AxisParallel(vs[e.0], vs[e.1])
    {
      var j :| 0 <= j < 12 && PrismEdges[j] == e;
      if j < 4 {
        assert vs[e.0].2 == vs[e.1].2;  // front ring
      } else if j < 8 {
        assert vs[e.0].2 == vs[e.1].2;  // back ring
      } else {
        assert vs[e.0].0 == vs[e.1].0 && vs[e.0].1 == vs[e.1].1;  // connectors
      }
    }
  }

  /**
   `q` is `p` moved by exactly one side of a box of extent `size`: by plus or
   minus the width along x, plus or minus the height along y, or by the depth
   along z.
   */
  predicate AlongSide(p: Point, q: Point, size: Point) {
    var (dx, dy, dz) := (q.0 - p.0, q.1 - p.1, q.2 - p.2);
    || (dy == 0.0 && dz == 0.0 && (dx == size.0 || dx == -size.0))
    || (dx == 0.0 && dz == 0.0 && (dy == size.1 || dy == -size.1))
    || (dx == 0.0 && dy == 0.0 && dz == size.2)
  }

  /** `p` and `q` differ in exactly one coordinate. */
  predicate DifferInOne(p: Point, q: Point) {
    || (p.0 != q.0 && p.1 == q.1 && p.2 == q.2)
    || (p.0 == q.0 && p.1 != q.1 && p.2 == q.2)
    || (p.0 == q.0 && p.1 == q.1 && p.2 != q.2)
  }

  /**
   Every drawn segment of a box is one of its sides: the front ring and the
   back ring step along x and y by the width and height, the connectors step
   along z by the depth. For a box with no zero extent each segment therefore
   has two distinct endpoints that differ in exactly one coordinate.
   */
  lemma BoxEdgeSides(origin: Point, size: Point)
    ensures forall j :: 0 <= j < 12 ==>
      AlongSide(CreateBox(origin, size).vertices[PrismEdges[j].0], CreateBox(origin, size).vertices[PrismEdges[j].1], size)
    ensures size.0 != 0.0 && size.1 != 0.0 && size.2 != 0.0 ==> forall j :: 0 <= j < 12 ==>
      DifferInOne(CreateBox(origin, size).vertices[PrismEdges[j].0], CreateBox(origin, size).vertices[PrismEdges[j].1])
  {
    var vs := CreateBox(origin, size).vertices;
    forall j | 0 <= j < 12
      ensures AlongSide(vs[PrismEdges[j].0], vs[PrismEdges[j].1], size)
    {
      BoxEdgeSide(origin, size, j);
    }
    if size.0 != 0.0 && size.1 != 0.0 && size.2 != 0.0 {
      forall j | 0 <= j < 12
        ensures DifferInOne(vs[PrismEdges[j].0], vs[PrismEdges[j].1])
      {
        SideDiffersInOne(vs[PrismEdges[j].0], vs[PrismEdges[j].1], size);
      }
    }
  }

  /** Edge `j` of a box is one of its sides. */
  lemma BoxEdgeSide(origin: Point, size: Point, j: nat)
    requires j < 12
    ensures AlongSide(CreateBox(origin, size).vertices[PrismEdges[j].0], CreateBox(origin, size).vertices[PrismEdges[j].1], size)
  {
    var vs := CreateBox(origin, size).vertices;
    var (x, y, z) := origin;
    var (w, h, d) := size;
    assert vs == [
      (x, y, z), (x + w, y, z), (x + w, y + h, z), (x, y + h, z),
      (x, y, z + d), (x + w, y, z + d), (x + w, y + h, z + d), (x, y + h, z + d)
    ];
    var (a, b) := PrismEdges[j];
    if j < 4 {
      assert vs[a].2 == vs[b].2;  // front ring
    } else if j < 8 {
      assert vs[a].2 == vs[b].2;  // back ring
    } else {
      assert b == a + 4;  // connectors
    }
  }

  /** A side of a box with no zero extent moves exactly one coordinate. */
  lemma SideDiffersInOne(p: Point, q: Point, size: Point)
    requires size.0 != 0.0 && size.1 != 0.0 && size.2 != 0.0
    requires AlongSide(p, q, size)
    ensures DifferInOne(p, q)
  {
  }

  /** No segment of a prism is drawn twice, in either direction. */
  lemma PrismEdgesDistinct()
    ensures forall i, j :: 0 <= i < j < 12 ==>
      PrismEdges[i] != PrismEdges[j] && PrismEdges[i] != (PrismEdges[j].1, PrismEdges[j].0)
  {
  }

  /**
   A slanted leg: the given front face, a back face one unit further along z,
   and the prism's twelve edges (main.py, the `v2`/`e2` and `v3`/`e3` blocks).
   */
  function Slab(front: seq<Point>): (r: Wireframe)
    ensures |front| == 4 ==> SlabVertices(r.vertices, 1.0) && WellFormed(r)
    ensures |r.vertices| == 2 * |front| && r.vertices[..|front|] == front
    ensures |r.edges| == 12
  {
    var back := LiftAll(front, 1.0);
    var vertices := front + back;
    assert vertices[|front|..] == back;
    PrismEdgesWithin();
    Wireframe(vertices, PrismEdges)
  }

  /** The edges `es` with `offset` added to both endpoints. */
  function Shift(es: seq<Edge>, offset: nat): (r: seq<Edge>)
    ensures |r| == |es|
    ensures forall lo: nat, hi: nat :: EdgesWithin(es, lo, hi) ==> EdgesWithin(r, lo + offset, hi + offset)
  {
    var r := seq(|es|, i requires 0 <= i < |es| => (es[i].0 + offset, es[i].1 + offset));
    assert forall e :: e in r ==> exists i :: 0 <= i < |es| && e == (es[i].0 + offset, es[i].1 + offset);
    r
  }

  /** The wireframe with no vertices and no edges. */
  const Empty := Wireframe([], [])

  /**
   Appends block `b` to the collected wireframe `g`: the offset is the vertex
   count of `g` taken before the vertices are appended (main.py:43-45).
   */
  function Extend(g: Wireframe, b: Wireframe): (r: Wireframe)
    ensures |r.vertices| == |g.vertices| + |b.vertices|
    ensures |r.edges| == |g.edges| + |b.edges|
    ensures r.vertices[..|g.vertices|] == g.vertices && r.vertices[|g.vertices|..] == b.vertices
    ensures r.edges[..|g.edges|] == g.edges
    ensures WellFormed(b) ==> EdgesWithin(r.edges[|g.edges|..], |g.vertices|, |r.vertices|)
    ensures WellFormed(g) && WellFormed(b) ==> WellFormed(r)
    ensures WellFormed(g) ==> forall i :: 0 <= i < |g.edges| ==>
      r.vertices[r.edges[i].0] == g.vertices[g.edges[i].0] && r.vertices[r.edges[i].1] == g.vertices[g.edges[i].1]
    ensures WellFormed(b) ==> forall i :: 0 <= i < |b.edges| ==>
      r.vertices[r.edges[|g.edges| + i].0] == b.vertices[b.edges[i].0]
      && r.vertices[r.edges[|g.edges| + i].1] == b.vertices[b.edges[i].1]
  {
    var offset := |g.vertices|;
    var shifted := Shift(b.edges, offset);
    var r := Wireframe(g.vertices + b.vertices, g.edges + shifted);
    assert r.edges[|g.edges|..] == shifted;
    AppendedEndpoints(g, b, shifted);
    assert WellFormed(b) ==> EdgesWithin(shifted, offset, offset + |b.vertices|);
    r
  }

  /**
   In `g` followed by `b` with `b`'s edges shifted by the vertex count of `g`,
   every edge joins the same two points it joined in its own part.
   */
  lemma AppendedEndpoints(g: Wireframe, b: Wireframe, shifted: seq<Edge>)
    requires shifted == Shift(b.edges, |g.vertices|)
    ensures var r := Wireframe(g.vertices + b.vertices, g.edges + shifted);
      WellFormed(g) ==> forall i :: 0 <= i < |g.edges| ==>
        r.vertices[r.edges[i].0] == g.vertices[g.edges[i].0] && r.vertices[r.edges[i].1] == g.vertices[g.edges[i].1]
    ensures var r := Wireframe(g.vertices + b.vertices, g.edges + shifted);
      WellFormed(b) ==> forall i :: 0 <= i < |b.edges| ==>
        r.vertices[r.edges[|g.edges| + i].0] == b.vertices[b.edges[i].0]
        && r.vertices[r.edges[|g.edges| + i].1] == b.vertices[b.edges[i].1]
  {
    var r := Wireframe(g.vertices + b.vertices, g.edges + shifted);
    forall i | 0 <= i < |g.edges|
      ensures r.edges[i] == g.edges[i]
    {
    }
    forall j | 0 <= j < |b.vertices|
      ensures r.vertices[|g.vertices| + j] == b.vertices[j]
    {
    }
    forall i | 0 <= i < |b.edges|
      ensures r.edges[|g.edges| + i] == shifted[i]
    {
    }
  }

  // Dimensions of the vertical stick (main.py:33-35).
  const Width := 1.0
  const Depth := 1.0
  const Height := 6.0

  /** Block 0: the vertical stick, centred vertically (main.py:42). */
  function Stick(): Wireframe {
    CreateBox((-2.0, -3.0, -0.5), (Width, Height, Depth))
  }

  /** Front face of the upper leg, from the middle of the stick up and to the right (main.py:59-62). */
  const UpperFront: seq<Point> := [(-1.0, 0.0, -0.5), (0.0, 0.0, -0.5), (2.0, 3.0, -0.5), (1.0, 3.0, -0.5)]

  /** Front face of the lower leg, from the middle of the stick down and to the right (main.py:78-81). */
  const LowerFront: seq<Point> := [(-1.0, 0.0, -0.5), (0.0, 0.0, -0.5), (2.0, -3.0, -0.5), (1.0, -3.0, -0.5)]

  /** The complete glyph: stick, upper leg, lower leg, in that order (main.py, `get_k_geometry`). */
  function KGeometry(): (r: Wireframe)
    ensures |r.vertices| == 24 && |r.edges| == 36
    ensures WellFormed(r)
  {
    PrismEdgesWithin();
    Extend(Extend(Extend(Empty, Stick()), Slab(UpperFront)), Slab(LowerFront))
  }

  /** Block `k` of `w` exists and its twelve edges stay inside its own eight vertices. */
  predicate BlockLocal(w: Wireframe, k: nat) {
    12 * k + 12 <= |w.edges| && 8 * k + 8 <= |w.vertices|
    && EdgesWithin(w.edges[12 * k .. 12 * k + 12], 8 * k, 8 * k + 8)
  }

  /** Block `k` of `w` exists and its eight vertices form a prism of the given depth. */
  predicate BlockIsSlab(w: Wireframe, k: nat, depth: real) {
    8 * k + 8 <= |w.vertices| && SlabVertices(w.vertices[8 * k .. 8 * k + 8], depth)
  }

  /** Three well-formed blocks of eight vertices and twelve edges each. */
  predicate ThreeBlocks(a: Wireframe, b: Wireframe, c: Wireframe) {
    && |a.vertices| == 8 && |b.vertices| == 8 && |c.vertices| == 8
    && |a.edges| == 12 && |b.edges| == 12 && |c.edges| == 12
    && WellFormed(a) && WellFormed(b) && WellFormed(c)
  }

  /** Appending three such blocks keeps each block's edges inside its own eight vertices. */
  lemma ThreeBlocksLocal(a: Wireframe, b: Wireframe, c: Wireframe)
    requires ThreeBlocks(a, b, c)
    ensures forall k :: 0 <= k < 3 ==> BlockLocal(Extend(Extend(Extend(Empty, a), b), c), k)
  {
    var g1 := Extend(Empty, a);
    var g2 := Extend(g1, b);
    var g3 := Extend(g2, c);
    // Block 0: the edges of g1, carried unchanged into g2 and g3.
    assert g1.edges[0..] == g1.edges;
    assert g3.edges[0..12] == g2.edges[0..12] == g1.edges;
    assert BlockLocal(g3, 0);
    // Block 1: edges 12..24 of g2, carried unchanged into g3.
    assert g3.edges[12..24] == g2.edges[12..24] == g2.edges[|g1.edges|..];
    assert BlockLocal(g3, 1);
    // Block 2: the last twelve edges of g3.
    assert g3.edges[24..36] == g3.edges[|g2.edges|..];
    assert BlockLocal(g3, 2);
    forall k | 0 <= k < 3
      ensures BlockLocal(g3, k)
    {
      if k == 0 { } else if k == 1 { } else { }
    }
  }

  /** Appending a block leaves an earlier prism a prism. */
  lemma KeepsSlab(g: Wireframe, b: Wireframe, k: nat, depth: real)
    requires BlockIsSlab(g, k, depth)
    ensures BlockIsSlab(Extend(g, b), k, depth)
  {
    var r := Extend(g, b);
    assert r.vertices[8 * k .. 8 * k + 8] == r.vertices[..|g.vertices|][8 * k .. 8 * k + 8];
  }

  /** A prism appended after `8 k` vertices is block `k` of the result. */
  lemma AppendsSlab(g: Wireframe, b: Wireframe, k: nat, depth: real)
    requires |g.vertices| == 8 * k && SlabVertices(b.vertices, depth)
    ensures BlockIsSlab(Extend(g, b), k, depth)
  {
    var r := Extend(g, b);
    assert r.vertices[8 * k .. 8 * k + 8] == r.vertices[|g.vertices|..];
  }

  /** Appending three prisms of depth `depth` keeps each one a prism at its new position. */
  lemma ThreeBlocksSlabs(a: Wireframe, b: Wireframe, c: Wireframe, depth: real)
    requires SlabVertices(a.vertices, depth) && SlabVertices(b.vertices, depth) && SlabVertices(c.vertices, depth)
    ensures forall k :: 0 <= k < 3 ==> BlockIsSlab(Extend(Extend(Extend(Empty, a), b), c), k, depth)
  {
    var g1 := Extend(Empty, a);
    var g2 := Extend(g1, b);
    var g3 := Extend(g2, c);
    forall k | 0 <= k < 3
      ensures BlockIsSlab(g3, k, depth)
    {
      if k == 0 {
        AppendsSlab(Empty, a, 0, depth);
        KeepsSlab(g1, b, 0, depth);
        KeepsSlab(g2, c, 0, depth);
      } else if k == 1 {
        AppendsSlab(g1, b, 1, depth);
        KeepsSlab(g2, c, 1, depth);
      } else {
        AppendsSlab(g2, c, 2, depth);
      }
    }
  }

  /**
   The glyph has 24 vertices and 36 edges, every edge index is in range, each of
   the three blocks references only its own vertices, and each block is a
   prism of depth 1 whose back face is its front face lifted along z.
   */
  lemma KGeometryShape()
    ensures |KGeometry().vertices| == 24 && |KGeometry().edges| == 36
    ensures WellFormed(KGeometry())
    ensures forall k :: 0 <= k < 3 ==> BlockLocal(KGeometry(), k)
    ensures forall k :: 0 <= k < 3 ==> BlockIsSlab(KGeometry(), k, 1.0)
  {
    var s, u, l := Stick(), Slab(UpperFront), Slab(LowerFront);
    assert ThreeBlocks(s, u, l);
    ThreeBlocksLocal(s, u, l);
    ThreeBlocksSlabs(s, u, l, 1.0);
  }

  /**
   The glyph's vertices are the stick's, then the upper leg's, then the lower
   leg's; its edges are the prism edges of each block shifted by 0, 8 and 16.
   */
  lemma KGeometryBlocks()
    ensures KGeometry().vertices == Stick().vertices + Slab(UpperFront).vertices + Slab(LowerFront).vertices
    ensures KGeometry().edges == PrismEdges + Shift(PrismEdges, 8) + Shift(PrismEdges, 16)
  {
  }
}
