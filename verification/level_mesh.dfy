/**
 * The level mesh's buffers: four vertices for each cell of a 10 × 10 block
 * of tiles, and an index buffer drawing each cell's quad as two triangles.
 */
module LevelMesh {

  const Side: nat := 10
  const Cells: nat := Side * Side
  const VerticesPerQuad: nat := 4
  const VertexCount: nat := VerticesPerQuad * Cells

  /** The six corner numbers of one quad's two triangles: (0, 2, 3) and (0, 1, 2). */
  const QuadPattern: seq<nat> := [0, 2, 3, 0, 1, 2]

  /** The largest value of the index buffer's element type, u16. */
  const U16Max: nat := 0xFFFF

  datatype Point3 = Point3(x: real, y: real, z: real)

  /** A vertex's position; texture coordinates are not part of this model. */
  datatype Vertex = Vertex(position: Point3)

  /** Corner c of a unit quad in the y = 0 plane, in the order `build_vertices` emits them. */
  function Corner(c: nat): Point3
    requires c < VerticesPerQuad
  {
    if c == 0 then Point3(-0.5, 0.0, -0.5)
    else if c == 1 then Point3(-0.5, 0.0, 0.5)
    else if c == 2 then Point3(0.5, 0.0, 0.5)
    else Point3(0.5, 0.0, -0.5)
  }

  lemma SixStep(q: nat, j: nat)
    requires j < 6
    ensures (6 * q + j) / 6 == q && (6 * q + j) % 6 == j
  {
  }

  lemma FourStep(q: nat, j: nat)
    requires j < 4
    ensures (4 * q + j) / 4 == q && (4 * q + j) % 4 == j
  {
  }

  /** `build_indices`: for each of the 100 quads, the pattern offset by four times the quad number. */
  method BuildIndices() returns (indices: seq<nat>)
    ensures |indices| == 6 * Cells
    ensures forall k :: 0 <= k < |indices| ==> indices[k] == QuadPattern[k % 6] + VerticesPerQuad * (k / 6)
    ensures forall k :: 0 <= k < |indices| ==> VerticesPerQuad * (k / 6) <= indices[k] < VerticesPerQuad * (k / 6) + VerticesPerQuad
    ensures forall k :: 0 <= k < |indices| ==> indices[k] < VertexCount <= U16Max
  {
    indices := [];
    var i := 0;
    while i < Cells
      invariant i <= Cells
      invariant |indices| == 6 * i
      invariant forall k :: 0 <= k < |indices| ==> indices[k] == QuadPattern[k % 6] + VerticesPerQuad * (k / 6)
    {
      var quad := seq(6, j requires 0 <= j < 6 => QuadPattern[j] + VerticesPerQuad * i);
      var next := indices + quad;
      forall k | 0 <= k < |next|
        ensures next[k] == QuadPattern[k % 6] + VerticesPerQuad * (k / 6)
      {
        if k >= 6 * i {
          SixStep(i, k - 6 * i);
        }
      }
      indices := next;
      i := i + 1;
    }
    forall k | 0 <= k < |indices|
      ensures indices[k] < VertexCount
    {
      assert k / 6 < Cells;
    }
  }

  /** `build_vertices`: the four corners of every cell, cell by cell. */
  method BuildVertices() returns (vertices: seq<Vertex>)
    ensures |vertices| == VertexCount
    ensures forall v :: 0 <= v < |vertices| ==> vertices[v] == Vertex(Corner(v % VerticesPerQuad))
  {
    vertices := [];
    var i := 0;
    while i < Side
      invariant i <= Side
      invariant |vertices| == VerticesPerQuad * Side * i
      invariant forall v :: 0 <= v < |vertices| ==> vertices[v] == Vertex(Corner(v % VerticesPerQuad))
    {
      var j := 0;
      while j < Side
        invariant j <= Side
        invariant |vertices| == VerticesPerQuad * (Side * i + j)
        invariant forall v :: 0 <= v < |vertices| ==> vertices[v] == Vertex(Corner(v % VerticesPerQuad))
      {
        var n := Side * i + j;
        var next := vertices + [Vertex(Corner(0)), Vertex(Corner(1)), Vertex(Corner(2)), Vertex(Corner(3))];
        forall v | 0 <= v < |next|
          ensures next[v] == Vertex(Corner(v % VerticesPerQuad))
        {
          if v >= |vertices| {
            FourStep(n, v - |vertices|);
          }
        }
        vertices := next;
        j := j + 1;
      }
      i := i + 1;
    }
  }

  /** The four corners of the unit square in the y = 0 plane, centred on the origin. */
  const UnitSquare: set<Point3> :=
    {Point3(-0.5, 0.0, -0.5), Point3(-0.5, 0.0, 0.5), Point3(0.5, 0.0, 0.5), Point3(0.5, 0.0, -0.5)}

  /**
   * The vertex buffer draws each quad as the whole unit square: the quad's
   * four vertices are pairwise distinct and are exactly its four corners,
   * and the quad's two triangles together use all four of them.
   */
  lemma QuadCoversUnitSquare(vertices: seq<Vertex>, indices: seq<nat>, q: nat)
    requires |vertices| == VertexCount
    requires forall v :: 0 <= v < |vertices| ==> vertices[v] == Vertex(Corner(v % VerticesPerQuad))
    requires |indices| == 6 * Cells
    requires forall k :: 0 <= k < |indices| ==> indices[k] == QuadPattern[k % 6] + VerticesPerQuad * (k / 6)
    requires q < Cells
    ensures var quad := vertices[4 * q .. 4 * q + 4];
      && (forall i, j :: 0 <= i < j < 4 ==> quad[i] != quad[j])
      && (set v | v in quad :: v.position) == UnitSquare
    ensures var triangles := indices[6 * q .. 6 * q + 6];
      (set i | i in triangles) == {4 * q, 4 * q + 1, 4 * q + 2, 4 * q + 3}
  {
    var quad := vertices[4 * q .. 4 * q + 4];
    forall c | 0 <= c < 4
      ensures quad[c] == Vertex(Corner(c))
    {
      FourStep(q, c);
    }
    assert quad == [Vertex(Corner(0)), Vertex(Corner(1)), Vertex(Corner(2)), Vertex(Corner(3))];
    var tri := indices[6 * q .. 6 * q + 6];
    forall j | 0 <= j < 6
      ensures tri[j] == QuadPattern[j] + 4 * q
    {
      SixStep(q, j);
    }
    assert tri == [4 * q, 4 * q + 2, 4 * q + 3, 4 * q, 4 * q + 1, 4 * q + 2];
  }

  /**
   * Every triangle of the index buffer joins three distinct corners of one
   * and the same quad, and each quad's two triangles share the diagonal 0–2.
   */
  lemma TrianglesStayInOneQuad(indices: seq<nat>, t: nat)
    requires |indices| == 6 * Cells
    requires forall k :: 0 <= k < |indices| ==> indices[k] == QuadPattern[k % 6] + VerticesPerQuad * (k / 6)
    requires t < 2 * Cells
    ensures var a, b, c := indices[3 * t], indices[3 * t + 1], indices[3 * t + 2];
      && a / VerticesPerQuad == b / VerticesPerQuad == c / VerticesPerQuad == t / 2
      && a != b && b != c && a != c
      && a % VerticesPerQuad == 0
      && (t % 2 == 0 ==> b % VerticesPerQuad == 2 && c % VerticesPerQuad == 3)
      && (t % 2 == 1 ==> b % VerticesPerQuad == 1 && c % VerticesPerQuad == 2)
  {
    var q, r := t / 2, t % 2;
    assert 3 * t == 6 * q + 3 * r;
    SixStep(q, 3 * r);
    SixStep(q, 3 * r + 1);
    SixStep(q, 3 * r + 2);
    FourStep(q, QuadPattern[3 * r]);
    FourStep(q, QuadPattern[3 * r + 1]);
    FourStep(q, QuadPattern[3 * r + 2]);
  }
}
