/**
 * The integer layout of the meteor trail mesh in main.js. Each of the
 * `MeteorCount` meteors owns `2 * TrailLength` consecutive vertices, two per
 * trail point; each pair of neighbouring trail points is joined by two
 * triangles. The vertex positions are floating-point and outside this model;
 * what is modelled is which vertex numbers the index buffer refers to and
 * which slots of the position array each frame writes.
 */
module MeteorMesh {

  const MeteorCount: nat := 30
  const TrailLength: nat := 25
  /** Vertices owned by one meteor: two per trail point. */
  const VerticesPerMeteor: nat := 2 * TrailLength
  /** Vertices in the mesh, and so in the position array (three floats each). */
  const VertexCount: nat := MeteorCount * VerticesPerMeteor
  const PositionLength: nat := 3 * VertexCount
  /** Index entries one meteor contributes: six per trail segment. */
  const IndicesPerMeteor: nat := 6 * (TrailLength - 1)

  /** The first vertex of trail point `j` of meteor `i`. */
  function SegmentBase(i: nat, j: nat): nat
  {
    i * VerticesPerMeteor + j * 2
  }

  /** The smaller of `a` and `b`. */
  function Min(a: nat, b: nat): nat
  {
    if a < b then a else b
  }

  /** The two triangles joining the vertex pair at `base` to the next pair. */
  function Quad(base: nat): seq<nat>
  {
    [base, base + 1, base + 2, base + 1, base + 3, base + 2]
  }

  /** The index entries of the first `j` segments of meteor `i`. */
  function TrailIndices(i: nat, j: nat): seq<nat>
  {
    if j == 0 then [] else TrailIndices(i, j - 1) + Quad(SegmentBase(i, j - 1))
  }

  /** The index entries of the first `n` meteors. */
  function MeshIndices(n: nat): seq<nat>
  {
    if n == 0 then [] else MeshIndices(n - 1) + TrailIndices(n - 1, TrailLength - 1)
  }

  /**
   * The loops of the mesh construction: for every meteor and trail point, two
   * vertices are pushed, and for every trail point but the last, the six
   * indices joining it to the next one.
   */
  method CreateMeteorLayout() returns (indices: seq<nat>, vertexCount: nat)
    ensures indices == MeshIndices(MeteorCount)
    ensures vertexCount == VertexCount
  {
    indices, vertexCount := [], 0;
    for i := 0 to MeteorCount
      invariant indices == MeshIndices(i)
      invariant vertexCount == i * VerticesPerMeteor
    {
      ghost var done := indices;
      for j := 0 to TrailLength
        invariant indices == done + TrailIndices(i, Min(j, TrailLength - 1))
        invariant vertexCount == i * VerticesPerMeteor + 2 * j
      {
        vertexCount := vertexCount + 2;
        if j < TrailLength - 1 {
          var baseIndex := i * TrailLength * 2 + j * 2;
          assert baseIndex == SegmentBase(i, j);
          assert TrailIndices(i, j + 1) == TrailIndices(i, j) + Quad(baseIndex);
          indices := indices
            + [baseIndex, baseIndex + 1, baseIndex + 2, baseIndex + 1, baseIndex + 3, baseIndex + 2];
        }
      }
      assert MeshIndices(i + 1) == done + TrailIndices(i, TrailLength - 1);
    }
  }

  /** Meteor `i`'s first `j` segments refer only to its own vertices `2*j + 1` and below. */
  lemma {:induction false} TrailIndicesInBlock(i: nat, j: nat)
    ensures |TrailIndices(i, j)| == 6 * j
    ensures forall k :: 0 <= k < |TrailIndices(i, j)| ==>
      i * VerticesPerMeteor <= TrailIndices(i, j)[k] <= i * VerticesPerMeteor + 2 * j + 1
  {
    if j > 0 {
      TrailIndicesInBlock(i, j - 1);
    }
  }

  /** Entry `r` of segment `s` of meteor `i`'s run is entry `r` of that segment's quad. */
  lemma {:induction false} TrailIndicesAt(i: nat, j: nat, s: nat, r: nat)
    requires s < j && r < 6
    ensures |TrailIndices(i, j)| == 6 * j
    ensures TrailIndices(i, j)[6 * s + r] == Quad(SegmentBase(i, s))[r]
  {
    TrailIndicesInBlock(i, j);
    if s < j - 1 {
      TrailIndicesAt(i, j - 1, s, r);
    }
  }

  /** The index buffer is meteor 0's run of entries, then meteor 1's, and so on. */
  lemma {:induction false} MeshIndicesLayout(n: nat)
    ensures |MeshIndices(n)| == n * IndicesPerMeteor
    ensures forall m :: 0 <= m < n ==>
      MeshIndices(n)[m * IndicesPerMeteor .. (m + 1) * IndicesPerMeteor] == TrailIndices(m, TrailLength - 1)
  {
    if n > 0 {
      MeshIndicesLayout(n - 1);
      TrailIndicesInBlock(n - 1, TrailLength - 1);
      var prefix, last := MeshIndices(n - 1), TrailIndices(n - 1, TrailLength - 1);
      assert MeshIndices(n) == prefix + last;
      forall m | 0 <= m < n
        ensures MeshIndices(n)[m * IndicesPerMeteor .. (m + 1) * IndicesPerMeteor]
             == TrailIndices(m, TrailLength - 1)
      {
        if m < n - 1 {
          assert (m + 1) * IndicesPerMeteor <= |prefix|;
          assert MeshIndices(n)[m * IndicesPerMeteor .. (m + 1) * IndicesPerMeteor]
              == prefix[m * IndicesPerMeteor .. (m + 1) * IndicesPerMeteor];
        } else {
          assert m * IndicesPerMeteor == |prefix|;
        }
      }
    }
  }

  /** Entry `x` of meteor `m`'s run sits at offset `m * IndicesPerMeteor + x` of the buffer. */
  lemma EntryOfMeteor(n: nat, m: nat, x: nat)
    requires m < n && x < IndicesPerMeteor
    ensures m * IndicesPerMeteor + x < |MeshIndices(n)|
    ensures |TrailIndices(m, TrailLength - 1)| == IndicesPerMeteor
    ensures MeshIndices(n)[m * IndicesPerMeteor + x] == TrailIndices(m, TrailLength - 1)[x]
  {
    MeshIndicesLayout(n);
    TrailIndicesInBlock(m, TrailLength - 1);
    var idx := MeshIndices(n);
    assert (m + 1) * IndicesPerMeteor <= n * IndicesPerMeteor;
    assert idx[m * IndicesPerMeteor .. (m + 1) * IndicesPerMeteor][x] == idx[m * IndicesPerMeteor + x];
  }

  /**
   * In the first `n` meteors, triangle `h` (0 or 1) of segment `s` of meteor
   * `m` has three distinct vertices, all of them vertices of meteor `m`: no
   * triangle joins two meteors.
   */
  lemma TriangleWithinMeteor(n: nat, m: nat, s: nat, h: nat)
    requires m < n && s < TrailLength - 1 && h < 2
    ensures var k, idx := m * IndicesPerMeteor + 6 * s + 3 * h, MeshIndices(n);
      && k + 2 < |idx|
      && m * VerticesPerMeteor <= idx[k] < (m + 1) * VerticesPerMeteor
      && m * VerticesPerMeteor <= idx[k + 1] < (m + 1) * VerticesPerMeteor
      && m * VerticesPerMeteor <= idx[k + 2] < (m + 1) * VerticesPerMeteor
      && idx[k] != idx[k + 1] && idx[k + 1] != idx[k + 2] && idx[k] != idx[k + 2]
  {
    var x := 6 * s + 3 * h;
    EntryOfMeteor(n, m, x);
    EntryOfMeteor(n, m, x + 1);
    EntryOfMeteor(n, m, x + 2);
    TrailIndicesAt(m, TrailLength - 1, s, 3 * h);
    TrailIndicesAt(m, TrailLength - 1, s, 3 * h + 1);
    TrailIndicesAt(m, TrailLength - 1, s, 3 * h + 2);
  }

  /** Every entry of the mesh's index buffer is the number of one of its vertices. */
  lemma IndicesBelowVertexCount()
    ensures |MeshIndices(MeteorCount)| == MeteorCount * IndicesPerMeteor
    ensures forall k :: 0 <= k < |MeshIndices(MeteorCount)| ==> MeshIndices(MeteorCount)[k] < VertexCount
  {
    MeshIndicesBounded(MeteorCount);
  }

  /** The first `n` meteors refer only to vertices below `n * VerticesPerMeteor`. */
  lemma {:induction false} MeshIndicesBounded(n: nat)
    ensures |MeshIndices(n)| == n * IndicesPerMeteor
    ensures forall k :: 0 <= k < |MeshIndices(n)| ==> MeshIndices(n)[k] < n * VerticesPerMeteor
  {
    if n > 0 {
      MeshIndicesBounded(n - 1);
      TrailIndicesInBlock(n - 1, TrailLength - 1);
    }
  }

  /**
   * The slots of the position array one animation frame writes, in the order
   * it writes them: for each meteor, read off the initial-position array in
   * steps of three, and each trail point, the six floats of its vertex pair.
   */
  method FrameWriteOffsets() returns (written: seq<nat>)
    ensures |written| == PositionLength
    ensures forall k :: 0 <= k < |written| ==> written[k] == k
  {
    written := [];
    var positionsLength := 3 * MeteorCount;
    var i := 0;
    while i < positionsLength
      invariant 0 <= i <= positionsLength && i % 3 == 0
      invariant |written| == 3 * VerticesPerMeteor * (i / 3)
      invariant forall k :: 0 <= k < |written| ==> written[k] == k
    {
      var meteorIndex := i / 3;
      for j := 0 to 25
        invariant |written| == (meteorIndex * 50 + j * 2) * 3
        invariant forall k :: 0 <= k < |written| ==> written[k] == k
      {
        var idx := (meteorIndex * 50 + j * 2) * 3;
        written := written + [idx, idx + 1, idx + 2, idx + 3, idx + 4, idx + 5];
      }
      i := i + 3;
    }
  }
}
