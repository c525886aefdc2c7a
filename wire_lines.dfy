/** The wireframe debug view of an indexed or plain draw: get_wire_lines
    turns the vertices of a triangle, fan, strip or quad draw into a list of
    line segments, one add_line call per segment, each appending two
    CoglP3Vertex values (three floats apiece) to the output buffer.

    The vertex buffer is its bytes, read from its start (the source reads
    vertex `k` at `k * stride` from the mapped buffer, whatever the
    attribute's offset). A float is moved bit for bit and is modelled by
    its four bytes. The output buffer is an array of floats, three per
    CoglP3Vertex. */
module WireLines {
  import opened Base
  import opened IndexBuffers
  import VertexAttributes

  /** The bit pattern of a 32-bit float. */
  datatype Float = Float(b0: byte, b1: byte, b2: byte, b3: byte)

  /** 0.0f: all bits clear. */
  const ZERO_FLOAT: Float := Float(0, 0, 0, 0)

  /** CoglVerticesMode, with GL_QUADS, which the journal passes in GL builds. */
  datatype VerticesMode = Points | Lines | LineLoop | LineStrip | Triangles | TriangleStrip | TriangleFan | Quads

  /** One line segment, between two vertex numbers of the draw (before they
      are looked up in the index array). */
  datatype Edge = Edge(start: int, end: int)

  // ---------------------------------------------------------------------
  // Which segments each mode is drawn with.
  // ---------------------------------------------------------------------

  /** The modes and vertex counts get_wire_lines expands; for any other it
      produces nothing. */
  predicate Expands(mode: VerticesMode, n: int)
    ensures Expands(mode, n) ==> mode == Triangles || mode == TriangleFan || mode == TriangleStrip || mode == Quads
    ensures Expands(mode, n) && n >= 0 ==> n == 0 || n >= 3
  {
    || (mode == Triangles && n % 3 == 0)
    || (mode == TriangleFan && n >= 3)
    || (mode == TriangleStrip && n >= 3)
    || (mode == Quads && n % 4 == 0)
  }

  /** The number of segments (n_lines) drawn for `n` vertices. */
  function EdgeCount(mode: VerticesMode, n: nat): (r: nat)
    ensures r == 0 <==> !Expands(mode, n) || n == 0
    ensures Expands(mode, n) && (mode == Triangles || mode == Quads) ==> r == n
    ensures Expands(mode, n) && (mode == TriangleFan || mode == TriangleStrip) ==> n <= r < 2 * n
  {
    if !Expands(mode, n) then 0
    else if mode == Triangles || mode == Quads then n
    else 2 * n - 3
  }

  /** Segment `j` in the order get_wire_lines adds them: each triangle
      (quad) closes back to its first vertex; a fan or a strip starts with
      the first triangle's three sides, then adds two sides for each further
      vertex `i`, from `i - 1` and from the fan's centre (the strip's
      vertex `i - 2`). */
  function EdgeAt(mode: VerticesMode, n: nat, j: nat): (e: Edge)
    requires j < EdgeCount(mode, n)
    ensures 0 <= e.start < n && 0 <= e.end < n
  {
    if mode == Triangles then
      TriangleFloor(j, n);
      Edge(j, j - j % 3 + (j % 3 + 1) % 3)
    else if mode == Quads then
      QuadFloor(j, n);
      Edge(j, j - j % 4 + (j % 4 + 1) % 4)
    else if j == 0 then Edge(0, 1)
    else if j == 1 then Edge(1, 2)
    else if j == 2 then Edge(0, 2)
    else
      var i := 3 + (j - 3) / 2;
      if (j - 3) % 2 == 0 then Edge(i - 1, i)
      else if mode == TriangleFan then Edge(0, i)
      else Edge(i - 2, i)
  }

  lemma TriangleFloor(j: nat, n: nat)
    requires n % 3 == 0 && j < n
    ensures j - j % 3 + 2 < n
  {
    var q := j / 3;
    assert j == 3 * q + j % 3;
    assert n == 3 * (n / 3);
    assert q < n / 3;
  }

  lemma QuadFloor(j: nat, n: nat)
    requires n % 4 == 0 && j < n
    ensures j - j % 4 + 3 < n
  {
    var q := j / 4;
    assert j == 4 * q + j % 4;
    assert n == 4 * (n / 4);
    assert q < n / 4;
  }

  /** The segments of a draw of `n` vertices, all between vertices of the
      draw. */
  function WireEdges(mode: VerticesMode, n: nat): (edges: seq<Edge>)
    ensures |edges| == EdgeCount(mode, n)
    ensures forall j :: 0 <= j < |edges| ==> edges[j] == EdgeAt(mode, n, j)
  {
    seq(EdgeCount(mode, n), j requires 0 <= j < EdgeCount(mode, n) => EdgeAt(mode, n, j))
  }

  /** A segment joins `a` and `b`, in either direction. */
  predicate Joins(e: Edge, a: int, b: int) {
    (e.start == a && e.end == b) || (e.start == b && e.end == a)
  }

  /** Triangle `t` of a TRIANGLES draw is outlined by segments 3t, 3t+1 and
      3t+2, going round it and back to its first vertex. */
  lemma {:induction false} TriangleOutlined(n: nat, t: nat)
    requires n % 3 == 0 && 3 * t + 2 < n
    ensures |WireEdges(Triangles, n)| == n
    ensures WireEdges(Triangles, n)[3 * t] == Edge(3 * t, 3 * t + 1)
    ensures WireEdges(Triangles, n)[3 * t + 1] == Edge(3 * t + 1, 3 * t + 2)
    ensures WireEdges(Triangles, n)[3 * t + 2] == Edge(3 * t + 2, 3 * t)
  {
    DivUnique(3 * t, 3, t, 0);
    DivUnique(3 * t + 1, 3, t, 1);
    DivUnique(3 * t + 2, 3, t, 2);
  }

  /** Quad `q` of a QUADS draw is outlined by segments 4q to 4q+3. */
  lemma {:induction false} QuadOutlined(n: nat, q: nat)
    requires n % 4 == 0 && 4 * q + 3 < n
    ensures |WireEdges(Quads, n)| == n
    ensures WireEdges(Quads, n)[4 * q] == Edge(4 * q, 4 * q + 1)
    ensures WireEdges(Quads, n)[4 * q + 1] == Edge(4 * q + 1, 4 * q + 2)
    ensures WireEdges(Quads, n)[4 * q + 2] == Edge(4 * q + 2, 4 * q + 3)
    ensures WireEdges(Quads, n)[4 * q + 3] == Edge(4 * q + 3, 4 * q)
  {
    DivUnique(4 * q, 4, q, 0);
    DivUnique(4 * q + 1, 4, q, 1);
    DivUnique(4 * q + 2, 4, q, 2);
    DivUnique(4 * q + 3, 4, q, 3);
  }

  predicate Drawn(edges: seq<Edge>, a: int, b: int) {
    exists j :: 0 <= j < |edges| && Joins(edges[j], a, b)
  }

  /** Every side of triangle `i` of a strip (vertices i-2, i-1, i) is drawn. */
  lemma {:induction false} StripTriangleOutlined(n: nat, i: nat)
    requires 2 <= i < n
    ensures Drawn(WireEdges(TriangleStrip, n), i - 2, i - 1)
    ensures Drawn(WireEdges(TriangleStrip, n), i - 1, i)
    ensures Drawn(WireEdges(TriangleStrip, n), i - 2, i)
  {
    var edges := WireEdges(TriangleStrip, n);
    if i == 2 {
      assert Joins(edges[0], 0, 1) && Joins(edges[1], 1, 2) && Joins(edges[2], 0, 2);
    } else {
      var j := 3 + 2 * (i - 3);
      assert (j - 3) / 2 == i - 3 && (j - 3) % 2 == 0;
      assert (j + 1 - 3) / 2 == i - 3 && (j + 1 - 3) % 2 == 1;
      assert Joins(edges[j], i - 1, i) && Joins(edges[j + 1], i - 2, i);
      if i == 3 {
        assert Joins(edges[1], i - 2, i - 1);
      } else {
        var k := 3 + 2 * (i - 4);
        assert (k - 3) / 2 == i - 4 && (k - 3) % 2 == 0;
        assert Joins(edges[k], i - 2, i - 1);
      }
    }
  }

  /** Every side of triangle `i` of a fan (vertices 0, i-1, i) is drawn. */
  lemma {:induction false} FanTriangleOutlined(n: nat, i: nat)
    requires 2 <= i < n
    ensures Drawn(WireEdges(TriangleFan, n), 0, i - 1)
    ensures Drawn(WireEdges(TriangleFan, n), i - 1, i)
    ensures Drawn(WireEdges(TriangleFan, n), 0, i)
  {
    var edges := WireEdges(TriangleFan, n);
    if i == 2 {
      assert Joins(edges[0], 0, 1) && Joins(edges[1], 1, 2) && Joins(edges[2], 0, 2);
    } else {
      var j := 3 + 2 * (i - 3);
      assert (j - 3) / 2 == i - 3 && (j - 3) % 2 == 0;
      assert (j + 1 - 3) / 2 == i - 3 && (j + 1 - 3) % 2 == 1;
      assert Joins(edges[j], i - 1, i) && Joins(edges[j + 1], 0, i);
      if i == 3 {
        assert Joins(edges[2], 0, i - 1);
      } else {
        var k := 3 + 2 * (i - 4);
        assert (k + 1 - 3) / 2 == i - 4 && (k + 1 - 3) % 2 == 1;
        assert Joins(edges[k + 1], 0, i - 1);
      }
    }
  }

  /** No segment of a fan or strip is drawn twice: with the sides above,
      every side of every triangle is drawn exactly once. */
  lemma {:induction false} FanStripSegmentsDistinct(mode: VerticesMode, n: nat, j: nat, k: nat)
    requires mode == TriangleFan || mode == TriangleStrip
    requires n >= 3
    requires j < k < |WireEdges(mode, n)|
    ensures !Joins(WireEdges(mode, n)[j], WireEdges(mode, n)[k].start, WireEdges(mode, n)[k].end)
  {
    var ej, ek := EdgeAt(mode, n, j), EdgeAt(mode, n, k);
    if k >= 3 {
      var ik := 3 + (k - 3) / 2;
      assert ek.end == ik && ek.start < ik;
      if j >= 3 {
        var ij := 3 + (j - 3) / 2;
        assert ej.end == ij && ej.start < ij;
        if ij == ik {
          assert (j - 3) % 2 == 0 && (k - 3) % 2 == 1;
        }
      } else {
        assert ej.start <= 2 && ej.end <= 2;
      }
    }
  }

  // ---------------------------------------------------------------------
  // What each segment puts in the output buffer.
  // ---------------------------------------------------------------------

  /** The number of components add_line copies from a vertex: all of them
      for up to three, none for a non-positive count, and x, y, z only for
      four (see the Findings of the README). */
  function CopiedComponents(nComponents: int): (k: nat)
    ensures k <= 3
    ensures 0 <= nComponents <= 3 ==> k == nComponents
    ensures nComponents > 3 ==> k == 3
  {
    if nComponents < 0 then 0 else if nComponents > 3 then 3 else nComponents
  }

  /** The float stored at byte `at` of the vertex buffer. */
  function ReadFloat(vertices: seq<byte>, at: nat): Float
    requires at + 4 <= |vertices|
  {
    Float(vertices[at], vertices[at + 1], vertices[at + 2], vertices[at + 3])
  }

  /** The copied components of the vertex at buffer index `vertex` lie
      inside the buffer. */
  predicate VertexReadable(vertices: seq<byte>, stride: nat, nComponents: int, vertex: int) {
    vertex >= 0 && VertexOffset(vertex, stride) + 4 * CopiedComponents(nComponents) <= |vertices|
  }

  /** Where vertex `vertex` starts in the vertex buffer. */
  function VertexOffset(vertex: nat, stride: nat): nat {
    vertex * stride
  }

  /** Component `c` of a line end: the vertex's component while it is
      copied, 0.0 after that. */
  function Component(vertices: seq<byte>, stride: nat, nComponents: int, vertex: int, c: nat): Float
    requires VertexReadable(vertices, stride, nComponents, vertex)
    requires c < 3
  {
    if c < CopiedComponents(nComponents) then ReadFloat(vertices, VertexOffset(vertex, stride) + 4 * c)
    else ZERO_FLOAT
  }

  /** The three floats a line end gets: the vertex's copied components,
      then zeros up to z. */
  function Point(vertices: seq<byte>, stride: nat, nComponents: int, vertex: int): (p: seq<Float>)
    requires VertexReadable(vertices, stride, nComponents, vertex)
    ensures |p| == 3
  {
    [Component(vertices, stride, nComponents, vertex, 0),
     Component(vertices, stride, nComponents, vertex, 1),
     Component(vertices, stride, nComponents, vertex, 2)]
  }

  /** Vertex number `k` of the draw can be looked up and its vertex read. */
  predicate Readable(vertices: seq<byte>, indices: Option<IndexBuffer>, stride: nat, nComponents: int, k: int) {
    IndexReadable(indices, k) && VertexReadable(vertices, stride, nComponents, GetIndex(indices, k))
  }

  /** Every vertex number of a draw of `n` vertices is readable. */
  predicate DrawReadable(vertices: seq<byte>, indices: Option<IndexBuffer>, stride: nat, nComponents: int, n: nat) {
    forall k :: 0 <= k < n ==> Readable(vertices, indices, stride, nComponents, k)
  }

  /** Both ends of segment `e` are readable. */
  predicate SegmentReadable(vertices: seq<byte>, indices: Option<IndexBuffer>, stride: nat, nComponents: int,
                            e: Edge) {
    Readable(vertices, indices, stride, nComponents, e.start) &&
    Readable(vertices, indices, stride, nComponents, e.end)
  }

  predicate EdgesReadable(vertices: seq<byte>, indices: Option<IndexBuffer>, stride: nat, nComponents: int,
                          edges: seq<Edge>) {
    forall j {:trigger SegmentReadable(vertices, indices, stride, nComponents, edges[j])} ::
      0 <= j < |edges| ==> SegmentReadable(vertices, indices, stride, nComponents, edges[j])
  }

  /** The six floats of one segment: its start point, then its end point. */
  function LineFloats(vertices: seq<byte>, indices: Option<IndexBuffer>, stride: nat, nComponents: int,
                      e: Edge): (fs: seq<Float>)
    requires SegmentReadable(vertices, indices, stride, nComponents, e)
    ensures |fs| == 6
  {
    Point(vertices, stride, nComponents, GetIndex(indices, e.start))
      + Point(vertices, stride, nComponents, GetIndex(indices, e.end))
  }

  /** Every block holds the six floats of one segment. */
  predicate SixEach(blocks: seq<seq<Float>>) {
    forall j :: 0 <= j < |blocks| ==> |blocks[j]| == 6
  }

  /** The first `k` blocks, one after another. */
  function Concat(blocks: seq<seq<Float>>, k: nat): (fs: seq<Float>)
    requires SixEach(blocks) && k <= |blocks|
    ensures |fs| == 6 * k
  {
    if k == 0 then [] else Concat(blocks, k - 1) + blocks[k - 1]
  }

  /** `blocks` holds the floats of each segment of `edges`. */
  predicate BlocksFor(vertices: seq<byte>, indices: Option<IndexBuffer>, stride: nat, nComponents: int,
                      edges: seq<Edge>, blocks: seq<seq<Float>>) {
    && EdgesReadable(vertices, indices, stride, nComponents, edges)
    && |blocks| == |edges| && SixEach(blocks)
    && forall j {:trigger LineFloats(vertices, indices, stride, nComponents, edges[j])} ::
         0 <= j < |edges| ==> blocks[j] == LineFloats(vertices, indices, stride, nComponents, edges[j])
  }

  function SegmentBlocks(vertices: seq<byte>, indices: Option<IndexBuffer>, stride: nat, nComponents: int,
                         edges: seq<Edge>): (blocks: seq<seq<Float>>)
    requires EdgesReadable(vertices, indices, stride, nComponents, edges)
    ensures BlocksFor(vertices, indices, stride, nComponents, edges, blocks)
  {
    seq(|edges|, j requires 0 <= j < |edges| => LineFloats(vertices, indices, stride, nComponents, edges[j]))
  }

  /** The floats the wireframe of `edges` consists of: the segments' start
      and end points, segment after segment. */
  function WireFloats(vertices: seq<byte>, indices: Option<IndexBuffer>, stride: nat, nComponents: int,
                      edges: seq<Edge>): (fs: seq<Float>)
    requires EdgesReadable(vertices, indices, stride, nComponents, edges)
    ensures |fs| == 6 * |edges|
  {
    var blocks := SegmentBlocks(vertices, indices, stride, nComponents, edges);
    Concat(blocks, |blocks|)
  }

  lemma {:induction false} ConcatBlock(blocks: seq<seq<Float>>, k: nat, j: nat)
    requires SixEach(blocks) && j < k <= |blocks|
    ensures Concat(blocks, k)[6 * j..6 * j + 6] == blocks[j]
  {
    if j < k - 1 {
      ConcatBlock(blocks, k - 1, j);
      assert Concat(blocks, k)[..6 * (k - 1)] == Concat(blocks, k - 1);
    }
  }

  /** Floats 6j to 6j+5 of the wireframe are the two line vertices of
      segment `j`: its start point, then its end point. */
  lemma {:induction false} WireFloatsSegment(vertices: seq<byte>, indices: Option<IndexBuffer>, stride: nat,
                                             nComponents: int, edges: seq<Edge>, j: nat)
    requires EdgesReadable(vertices, indices, stride, nComponents, edges)
    requires j < |edges|
    ensures SegmentReadable(vertices, indices, stride, nComponents, edges[j])
    ensures WireFloats(vertices, indices, stride, nComponents, edges)[6 * j..6 * j + 3]
              == Point(vertices, stride, nComponents, GetIndex(indices, edges[j].start))
    ensures WireFloats(vertices, indices, stride, nComponents, edges)[6 * j + 3..6 * j + 6]
              == Point(vertices, stride, nComponents, GetIndex(indices, edges[j].end))
  {
    assert SegmentReadable(vertices, indices, stride, nComponents, edges[j]);
    var blocks := SegmentBlocks(vertices, indices, stride, nComponents, edges);
    ConcatBlock(blocks, |blocks|, j);
    var w := WireFloats(vertices, indices, stride, nComponents, edges);
    assert w[6 * j..6 * j + 6] == LineFloats(vertices, indices, stride, nComponents, edges[j]);
    assert w[6 * j..6 * j + 3] == w[6 * j..6 * j + 6][..3];
    assert w[6 * j + 3..6 * j + 6] == w[6 * j..6 * j + 6][3..];
  }

  /** A draw whose vertices are all readable has all its segments readable. */
  lemma DrawEdgesReadable(vertices: seq<byte>, indices: Option<IndexBuffer>, stride: nat, nComponents: int,
                          mode: VerticesMode, n: nat)
    requires DrawReadable(vertices, indices, stride, nComponents, n)
    ensures EdgesReadable(vertices, indices, stride, nComponents, WireEdges(mode, n))
  {
  }

  // ---------------------------------------------------------------------
  // add_line and get_wire_lines.
  // ---------------------------------------------------------------------

  /** The copy loops of add_line for one line end: the copied components of
      the vertex at buffer index `vertex`, then zeros, written at `o`. */
  method WritePoint(vertices: seq<byte>, stride: nat, nComponents: int, vertex: int,
                    lines: array<Float>, o: nat)
    requires VertexReadable(vertices, stride, nComponents, vertex)
    requires o + 3 <= lines.Length
    modifies lines
    ensures lines[..] == old(lines[..])[..o] + Point(vertices, stride, nComponents, vertex) + old(lines[..])[o + 3..]
  {
    ghost var p := Point(vertices, stride, nComponents, vertex);
    var copied := CopiedComponents(nComponents);
    var i := 0;
    while i < copied
      invariant 0 <= i <= copied
      invariant forall f :: 0 <= f < lines.Length ==>
                  lines[f] == if o <= f < o + i then Component(vertices, stride, nComponents, vertex, f - o)
                              else old(lines[f])
    {
      lines[o + i] := ReadFloat(vertices, VertexOffset(vertex, stride) + 4 * i);
      i := i + 1;
    }
    while i < 3
      invariant copied <= i <= 3
      invariant forall f :: 0 <= f < lines.Length ==>
                  lines[f] == if o <= f < o + i then Component(vertices, stride, nComponents, vertex, f - o)
                              else old(lines[f])
    {
      lines[o + i] := ZERO_FLOAT;
      i := i + 1;
    }
    assert lines[..] == old(lines[..])[..o] + p + old(lines[..])[o + 3..];
  }

  /** add_line: appends the segment from vertex number `start` to `end` as
      two line vertices at `nLineVertices` and returns the new count. */
  method AddLine(vertices: seq<byte>, indices: Option<IndexBuffer>, attribute: VertexAttributes.VertexAttribute,
                 start: int, end: int, lines: array<Float>, nLineVertices: nat) returns (count: nat)
    requires SegmentReadable(vertices, indices, attribute.stride, attribute.nComponents, Edge(start, end))
    requires 3 * (nLineVertices + 2) <= lines.Length
    modifies lines
    ensures count == nLineVertices + 2
    ensures lines[..] == old(lines[..])[..3 * nLineVertices]
                         + LineFloats(vertices, indices, attribute.stride, attribute.nComponents, Edge(start, end))
                         + old(lines[..])[3 * nLineVertices + 6..]
  {
    var startIndex := GetIndex(indices, start);
    var endIndex := GetIndex(indices, end);
    var o := 3 * nLineVertices;
    ghost var original := lines[..];
    WritePoint(vertices, attribute.stride, attribute.nComponents, startIndex, lines, o);
    ghost var first := lines[..];
    WritePoint(vertices, attribute.stride, attribute.nComponents, endIndex, lines, o + 3);
    SpliceTwice(original, first, lines[..], o,
                Point(vertices, attribute.stride, attribute.nComponents, startIndex),
                Point(vertices, attribute.stride, attribute.nComponents, endIndex));
    count := nLineVertices + 2;
  }

  /** Two consecutive three-float writes make one six-float write. */
  lemma SpliceTwice<T>(original: seq<T>, first: seq<T>, second: seq<T>, o: nat, p: seq<T>, q: seq<T>)
    requires |p| == 3 && |q| == 3 && o + 6 <= |original|
    requires first == original[..o] + p + original[o + 3..]
    requires second == first[..o + 3] + q + first[o + 6..]
    ensures second == original[..o] + (p + q) + original[o + 6..]
  {
    assert first[..o + 3] == original[..o] + p;
    assert first[o + 6..] == original[o + 6..];
  }

  /** Writing block `k` after the first `k` extends the output by it. */
  lemma {:induction false} NextBlock(blocks: seq<seq<Float>>, k: nat, before: seq<Float>, after: seq<Float>)
    requires SixEach(blocks) && k < |blocks| && 6 * k + 6 <= |before|
    requires before[..6 * k] == Concat(blocks, k)
    requires after == before[..6 * k] + blocks[k] + before[6 * k + 6..]
    ensures after[..6 * (k + 1)] == Concat(blocks, k + 1)
  {
    assert after[..6 * (k + 1)] == before[..6 * k] + blocks[k];
  }

  /** One add_line call that appends block `k`, the segment from `start`
      to `end`, after the first `k` blocks. */
  method AddSegment(vertices: seq<byte>, indices: Option<IndexBuffer>, attribute: VertexAttributes.VertexAttribute,
                    ghost edges: seq<Edge>, ghost blocks: seq<seq<Float>>, ghost k: nat, start: int, end: int,
                    lines: array<Float>, nLineVertices: nat) returns (count: nat)
    requires BlocksFor(vertices, indices, attribute.stride, attribute.nComponents, edges, blocks)
    requires k < |edges| && edges[k] == Edge(start, end)
    requires nLineVertices == 2 * k && 6 * k + 6 <= lines.Length
    requires lines[..6 * k] == Concat(blocks, k)
    modifies lines
    ensures count == 2 * (k + 1)
    ensures lines[..6 * (k + 1)] == Concat(blocks, k + 1)
  {
    assert SegmentReadable(vertices, indices, attribute.stride, attribute.nComponents, edges[k]);
    assert blocks[k] == LineFloats(vertices, indices, attribute.stride, attribute.nComponents, edges[k]);
    ghost var before := lines[..];
    count := AddLine(vertices, indices, attribute, start, end, lines, nLineVertices);
    NextBlock(blocks, k, before, lines[..]);
  }

  /** Segments 3t to 3t+2 go round triangle `t`. */
  predicate TriangleAt(edges: seq<Edge>, t: int) {
    0 <= t && 3 * t + 2 < |edges| &&
    edges[3 * t] == Edge(3 * t, 3 * t + 1) && edges[3 * t + 1] == Edge(3 * t + 1, 3 * t + 2) &&
    edges[3 * t + 2] == Edge(3 * t + 2, 3 * t)
  }

  /** Segments 4q to 4q+3 go round quad `q`. */
  predicate QuadAt(edges: seq<Edge>, q: int) {
    0 <= q && 4 * q + 3 < |edges| &&
    edges[4 * q] == Edge(4 * q, 4 * q + 1) && edges[4 * q + 1] == Edge(4 * q + 1, 4 * q + 2) &&
    edges[4 * q + 2] == Edge(4 * q + 2, 4 * q + 3) && edges[4 * q + 3] == Edge(4 * q + 3, 4 * q)
  }

  /** Segments 0 to 2 are the sides of the first triangle of a fan or strip. */
  predicate FirstTriangleAt(edges: seq<Edge>) {
    3 <= |edges| && edges[0] == Edge(0, 1) && edges[1] == Edge(1, 2) && edges[2] == Edge(0, 2)
  }

  /** The vertex a fan (its centre) or a strip (two back) joins vertex `i` to. */
  function SecondNeighbour(mode: VerticesMode, i: int): int {
    if mode == TriangleFan then 0 else i - 2
  }

  /** Segments 2i-3 and 2i-2 join vertex `i` to `i - 1` and to its second
      neighbour. */
  predicate JoinedAt(edges: seq<Edge>, mode: VerticesMode, i: int) {
    3 <= i && 2 * i - 2 < |edges| && edges[2 * i - 3] == Edge(i - 1, i) &&
    edges[2 * i - 2] == Edge(SecondNeighbour(mode, i), i)
  }

  /** The three add_line calls of one triangle of the TRIANGLES loop. */
  method AddTriangle(vertices: seq<byte>, indices: Option<IndexBuffer>, attribute: VertexAttributes.VertexAttribute,
                     ghost edges: seq<Edge>, ghost blocks: seq<seq<Float>>, ghost t: nat, i: nat,
                     lines: array<Float>, nLineVertices: nat) returns (count: nat)
    requires TriangleAt(edges, t) && i == 3 * t
    requires BlocksFor(vertices, indices, attribute.stride, attribute.nComponents, edges, blocks)
    requires nLineVertices == 6 * t && 6 * (3 * t + 3) <= lines.Length
    requires lines[..6 * (3 * t)] == Concat(blocks, 3 * t)
    modifies lines
    ensures count == 2 * (3 * t + 3)
    ensures lines[..6 * (3 * t + 3)] == Concat(blocks, 3 * t + 3)
  {
    count := AddSegment(vertices, indices, attribute, edges, blocks, i, i, i + 1, lines, nLineVertices);
    count := AddSegment(vertices, indices, attribute, edges, blocks, i + 1, i + 1, i + 2, lines, count);
    count := AddSegment(vertices, indices, attribute, edges, blocks, i + 2, i + 2, i, lines, count);
  }

  /** The four add_line calls of one quad of the QUADS loop. */
  method AddQuad(vertices: seq<byte>, indices: Option<IndexBuffer>, attribute: VertexAttributes.VertexAttribute,
                 ghost edges: seq<Edge>, ghost blocks: seq<seq<Float>>, ghost q: nat, i: nat,
                 lines: array<Float>, nLineVertices: nat) returns (count: nat)
    requires QuadAt(edges, q) && i == 4 * q
    requires BlocksFor(vertices, indices, attribute.stride, attribute.nComponents, edges, blocks)
    requires nLineVertices == 8 * q && 6 * (4 * q + 4) <= lines.Length
    requires lines[..6 * (4 * q)] == Concat(blocks, 4 * q)
    modifies lines
    ensures count == 2 * (4 * q + 4)
    ensures lines[..6 * (4 * q + 4)] == Concat(blocks, 4 * q + 4)
  {
    count := AddSegment(vertices, indices, attribute, edges, blocks, i, i, i + 1, lines, nLineVertices);
    count := AddSegment(vertices, indices, attribute, edges, blocks, i + 1, i + 1, i + 2, lines, count);
    count := AddSegment(vertices, indices, attribute, edges, blocks, i + 2, i + 2, i + 3, lines, count);
    count := AddSegment(vertices, indices, attribute, edges, blocks, i + 3, i + 3, i, lines, count);
  }

  /** The TRIANGLES branch of get_wire_lines: three segments per triangle,
      the last closing it. `edges` is the expected segment list. */
  method ExpandTriangles(vertices: seq<byte>, indices: Option<IndexBuffer>,
                         attribute: VertexAttributes.VertexAttribute, n: nat, ghost edges: seq<Edge>, ghost blocks: seq<seq<Float>>,
                         lines: array<Float>)
    returns (count: nat)
    requires n % 3 == 0 && |edges| == n
    requires forall t :: 0 <= t && 3 * t < n ==> TriangleAt(edges, t)
    requires BlocksFor(vertices, indices, attribute.stride, attribute.nComponents, edges, blocks)
    requires lines.Length == 6 * n
    modifies lines
    ensures count == 2 * n
    ensures lines[..] == Concat(blocks, |blocks|)
  {
    count := 0;
    var i := 0;
    ghost var group := 0;
    while i < n
      invariant 0 <= i <= n && i == 3 * group
      invariant count == 2 * i
      invariant lines[..6 * i] == Concat(blocks, i)
    {
      count := AddTriangle(vertices, indices, attribute, edges, blocks, group, i, lines, count);
      i := i + 3;
      group := group + 1;
    }
    assert lines[..] == lines[..6 * n];
  }

  /** The QUADS branch of get_wire_lines: four segments per quad, the last
      closing it. */
  method ExpandQuads(vertices: seq<byte>, indices: Option<IndexBuffer>,
                     attribute: VertexAttributes.VertexAttribute, n: nat, ghost edges: seq<Edge>, ghost blocks: seq<seq<Float>>,
                     lines: array<Float>)
    returns (count: nat)
    requires n % 4 == 0 && |edges| == n
    requires forall q :: 0 <= q && 4 * q < n ==> QuadAt(edges, q)
    requires BlocksFor(vertices, indices, attribute.stride, attribute.nComponents, edges, blocks)
    requires lines.Length == 6 * n
    modifies lines
    ensures count == 2 * n
    ensures lines[..] == Concat(blocks, |blocks|)
  {
    count := 0;
    var i := 0;
    ghost var group := 0;
    while i < n
      invariant 0 <= i <= n && i == 4 * group
      invariant count == 2 * i
      invariant lines[..6 * i] == Concat(blocks, i)
    {
      count := AddQuad(vertices, indices, attribute, edges, blocks, group, i, lines, count);
      i := i + 4;
      group := group + 1;
    }
    assert lines[..] == lines[..6 * n];
  }

  /** The three add_line calls a fan or a strip starts with: the sides of
      its first triangle. */
  method AddFirstTriangle(vertices: seq<byte>, indices: Option<IndexBuffer>,
                          attribute: VertexAttributes.VertexAttribute, ghost edges: seq<Edge>, ghost blocks: seq<seq<Float>>,
                          lines: array<Float>)
    returns (count: nat)
    requires FirstTriangleAt(edges)
    requires BlocksFor(vertices, indices, attribute.stride, attribute.nComponents, edges, blocks)
    requires 18 <= lines.Length
    modifies lines
    ensures count == 6
    ensures lines[..18] == Concat(blocks, 3)
  {
    count := AddSegment(vertices, indices, attribute, edges, blocks, 0, 0, 1, lines, 0);
    count := AddSegment(vertices, indices, attribute, edges, blocks, 1, 1, 2, lines, count);
    count := AddSegment(vertices, indices, attribute, edges, blocks, 2, 0, 2, lines, count);
  }

  /** The two add_line calls a fan or a strip makes for vertex `i >= 3`:
      from `i - 1`, then from the fan's centre or the strip's vertex `i - 2`. */
  method AddJoinedVertex(vertices: seq<byte>, indices: Option<IndexBuffer>,
                         attribute: VertexAttributes.VertexAttribute, ghost edges: seq<Edge>, ghost blocks: seq<seq<Float>>,
                         mode: VerticesMode, i: nat, lines: array<Float>, nLineVertices: nat)
    returns (count: nat)
    requires JoinedAt(edges, mode, i)
    requires BlocksFor(vertices, indices, attribute.stride, attribute.nComponents, edges, blocks)
    requires nLineVertices == 2 * (2 * i - 3) && 6 * (2 * i - 1) <= lines.Length
    requires lines[..6 * (2 * i - 3)]
               == Concat(blocks, 2 * i - 3)
    modifies lines
    ensures count == 2 * (2 * i - 1)
    ensures lines[..6 * (2 * i - 1)]
              == Concat(blocks, 2 * i - 1)
  {
    var k := 2 * i - 3;
    assert edges[k] == Edge(i - 1, i);
    assert blocks[k] == LineFloats(vertices, indices, attribute.stride, attribute.nComponents, edges[k]);
    count := AddSegment(vertices, indices, attribute, edges, blocks, k, i - 1, i, lines, nLineVertices);
    assert blocks[k + 1] == LineFloats(vertices, indices, attribute.stride, attribute.nComponents, edges[k + 1]);
    if mode == TriangleFan {
      count := AddSegment(vertices, indices, attribute, edges, blocks, k + 1, 0, i, lines, count);
    } else {
      count := AddSegment(vertices, indices, attribute, edges, blocks, k + 1, i - 2, i, lines, count);
    }
  }

  /** The TRIANGLE_FAN branch of get_wire_lines: the first triangle's
      three sides, then for each further vertex `i` its sides from `i - 1`
      and from the fan's centre, vertex 0. */
  method ExpandFan(vertices: seq<byte>, indices: Option<IndexBuffer>,
                    attribute: VertexAttributes.VertexAttribute, n: nat, ghost edges: seq<Edge>, ghost blocks: seq<seq<Float>>,
                    lines: array<Float>)
    returns (count: nat)
    requires n >= 3 && |edges| == 2 * n - 3
    requires FirstTriangleAt(edges)
    requires forall i :: 3 <= i < n ==> JoinedAt(edges, TriangleFan, i)
    requires BlocksFor(vertices, indices, attribute.stride, attribute.nComponents, edges, blocks)
    requires lines.Length == 6 * (2 * n - 3)
    modifies lines
    ensures count == 2 * (2 * n - 3)
    ensures lines[..] == Concat(blocks, |blocks|)
  {
    count := AddFirstTriangle(vertices, indices, attribute, edges, blocks, lines);
    var i := 3;
    while i < n
      invariant 3 <= i <= n
      invariant count == 2 * (2 * i - 3)
      invariant lines[..6 * (2 * i - 3)]
                  == Concat(blocks, 2 * i - 3)
    {
      assert JoinedAt(edges, TriangleFan, i);
      count := AddJoinedVertex(vertices, indices, attribute, edges, blocks, TriangleFan, i, lines, count);
      i := i + 1;
    }
    assert lines[..] == lines[..6 * (2 * n - 3)];
  }

  /** The TRIANGLE_STRIP branch of get_wire_lines: the first triangle's
      three sides, then for each further vertex `i` its sides from `i - 1`
      and from vertex `i - 2`. */
  method ExpandStrip(vertices: seq<byte>, indices: Option<IndexBuffer>,
                    attribute: VertexAttributes.VertexAttribute, n: nat, ghost edges: seq<Edge>, ghost blocks: seq<seq<Float>>,
                    lines: array<Float>)
    returns (count: nat)
    requires n >= 3 && |edges| == 2 * n - 3
    requires FirstTriangleAt(edges)
    requires forall i :: 3 <= i < n ==> JoinedAt(edges, TriangleStrip, i)
    requires BlocksFor(vertices, indices, attribute.stride, attribute.nComponents, edges, blocks)
    requires lines.Length == 6 * (2 * n - 3)
    modifies lines
    ensures count == 2 * (2 * n - 3)
    ensures lines[..] == Concat(blocks, |blocks|)
  {
    count := AddFirstTriangle(vertices, indices, attribute, edges, blocks, lines);
    var i := 3;
    while i < n
      invariant 3 <= i <= n
      invariant count == 2 * (2 * i - 3)
      invariant lines[..6 * (2 * i - 3)]
                  == Concat(blocks, 2 * i - 3)
    {
      assert JoinedAt(edges, TriangleStrip, i);
      count := AddJoinedVertex(vertices, indices, attribute, edges, blocks, TriangleStrip, i, lines, count);
      i := i + 1;
    }
    assert lines[..] == lines[..6 * (2 * n - 3)];
  }

  /** The first three segments of a fan or a strip: the sides of its first
      triangle. */
  lemma FirstTriangleSegments(mode: VerticesMode, n: nat)
    requires (mode == TriangleFan || mode == TriangleStrip) && n >= 3
    ensures FirstTriangleAt(WireEdges(mode, n))
  {
  }

  /** The two segments a fan or a strip adds for vertex `i >= 3`. */
  lemma JoinedSegments(mode: VerticesMode, n: nat, i: nat)
    requires (mode == TriangleFan || mode == TriangleStrip) && 3 <= i < n
    ensures JoinedAt(WireEdges(mode, n), mode, i)
  {
    var j := 2 * i - 3;
    assert (j - 3) / 2 == i - 3 && (j - 3) % 2 == 0;
    assert (j + 1 - 3) / 2 == i - 3 && (j + 1 - 3) % 2 == 1;
  }

  lemma TriangleShapes(n: nat)
    requires n % 3 == 0
    ensures forall t :: 0 <= t && 3 * t < n ==> TriangleAt(WireEdges(Triangles, n), t)
  {
    forall t | 0 <= t && 3 * t < n
      ensures TriangleAt(WireEdges(Triangles, n), t)
    {
      TriangleOutlined(n, t);
    }
  }

  lemma QuadShapes(n: nat)
    requires n % 4 == 0
    ensures forall q :: 0 <= q && 4 * q < n ==> QuadAt(WireEdges(Quads, n), q)
  {
    forall q | 0 <= q && 4 * q < n
      ensures QuadAt(WireEdges(Quads, n), q)
    {
      QuadOutlined(n, q);
    }
  }

  lemma JoinedShapes(mode: VerticesMode, n: nat)
    requires (mode == TriangleFan || mode == TriangleStrip) && n >= 3
    ensures FirstTriangleAt(WireEdges(mode, n))
    ensures forall i :: 3 <= i < n ==> JoinedAt(WireEdges(mode, n), mode, i)
  {
    FirstTriangleSegments(mode, n);
    forall i | 3 <= i < n
      ensures JoinedAt(WireEdges(mode, n), mode, i)
    {
      JoinedSegments(mode, n, i);
    }
  }

  /** get_wire_lines: the line vertices of every segment of the draw, in
      order, and their number. For a mode it does not expand the source
      returns an uninitialised pointer with a count of 0; here that is an
      empty buffer. */
  method GetWireLines(vertices: seq<byte>, attribute: VertexAttributes.VertexAttribute, mode: VerticesMode,
                      nVerticesIn: int, indices: Option<IndexBuffer>)
    returns (lines: array<Float>, nVerticesOut: nat)
    requires nVerticesIn >= 0
    requires Expands(mode, nVerticesIn) ==>
               DrawReadable(vertices, indices, attribute.stride, attribute.nComponents, nVerticesIn)
    ensures fresh(lines)
    ensures nVerticesOut == 2 * |WireEdges(mode, nVerticesIn)|
    ensures lines.Length == 3 * nVerticesOut
    ensures EdgesReadable(vertices, indices, attribute.stride, attribute.nComponents, WireEdges(mode, nVerticesIn))
    ensures lines[..] == WireFloats(vertices, indices, attribute.stride, attribute.nComponents,
                                    WireEdges(mode, nVerticesIn))
  {
    var n: nat := nVerticesIn;
    nVerticesOut := 0;
    if !Expands(mode, n) {
      lines := new Float[0];
      return;
    }
    DrawEdgesReadable(vertices, indices, attribute.stride, attribute.nComponents, mode, n);
    var nLines := EdgeCount(mode, n);
    lines := new Float[3 * (nLines * 2)](_ => ZERO_FLOAT);
    ghost var edges := WireEdges(mode, n);
    ghost var blocks := SegmentBlocks(vertices, indices, attribute.stride, attribute.nComponents, edges);
    if mode == Triangles {
      TriangleShapes(n);
      nVerticesOut := ExpandTriangles(vertices, indices, attribute, n, edges, blocks, lines);
    } else if mode == Quads {
      QuadShapes(n);
      nVerticesOut := ExpandQuads(vertices, indices, attribute, n, edges, blocks, lines);
    } else {
      JoinedShapes(mode, n);
      if mode == TriangleFan {
        nVerticesOut := ExpandFan(vertices, indices, attribute, n, edges, blocks, lines);
      } else {
        nVerticesOut := ExpandStrip(vertices, indices, attribute, n, edges, blocks, lines);
      }
    }
  }

  // ---------------------------------------------------------------------
  // add_line as written, for more than three components.
  // ---------------------------------------------------------------------

  /** The index of the last float add_line as written stores when it is
      called with `nLineVertices` line vertices already written: it copies
      all `nComponents` components of each end and pads only below three,
      so it stays within its two CoglP3Vertex slots exactly when
      `nComponents <= 3`. */
  function AddLineLastFloatAsWritten(nLineVertices: nat, nComponents: int): (last: int)
    ensures nComponents <= 3 ==> last == 3 * nLineVertices + 5
    ensures nComponents > 3 ==> last > 3 * (nLineVertices + 2) - 1
  {
    var perEnd := if nComponents > 3 then nComponents else 3;
    3 * nLineVertices + 2 * perEnd - 1
  }

  /** The floats the source's copy loops store for one end, as written:
      every component, then zeros up to three. */
  function EndFloatsAsWritten(components: seq<Float>): seq<Float> {
    components + seq(if |components| < 3 then 3 - |components| else 0, _ => ZERO_FLOAT)
  }

  /** The floats add_line stores from `o` onward, as written. */
  function LineFloatsAsWritten(v0: seq<Float>, v1: seq<Float>): seq<Float> {
    EndFloatsAsWritten(v0) + EndFloatsAsWritten(v1)
  }

  /** The first `k` floats of a vertex, read from byte `vertex * stride`. */
  function LeadingComponents(vertices: seq<byte>, stride: nat, vertex: int, k: nat): (cs: seq<Float>)
    requires vertex >= 0 && VertexOffset(vertex, stride) + 4 * k <= |vertices|
    ensures |cs| == k
  {
    seq(k, c requires 0 <= c < k => ReadFloat(vertices, VertexOffset(vertex, stride) + 4 * c))
  }

  /** A modelled point is the as-written end layout of the components the
      model copies: all of them up to three, else x, y and z. */
  lemma PointIsCopiedEnd(vertices: seq<byte>, stride: nat, nComponents: int, vertex: int)
    requires VertexReadable(vertices, stride, nComponents, vertex)
    ensures Point(vertices, stride, nComponents, vertex)
              == EndFloatsAsWritten(LeadingComponents(vertices, stride, vertex, CopiedComponents(nComponents)))
  {
    var cs := LeadingComponents(vertices, stride, vertex, CopiedComponents(nComponents));
    var end := EndFloatsAsWritten(cs);
    assert |end| == 3;
    forall c | 0 <= c < 3
      ensures end[c] == Component(vertices, stride, nComponents, vertex, c)
    {
      if c < |cs| {
        assert end[c] == cs[c];
      } else {
        assert end[c] == ZERO_FLOAT;
      }
    }
  }

  /** For up to three components the model's segment floats are exactly
      what the source's copy loops store. */
  lemma LineFloatsAsWrittenUpToThree(vertices: seq<byte>, indices: Option<IndexBuffer>, stride: nat,
                                     nComponents: int, e: Edge)
    requires SegmentReadable(vertices, indices, stride, nComponents, e)
    requires 0 <= nComponents <= 3
    ensures VertexReadable(vertices, stride, nComponents, GetIndex(indices, e.start))
    ensures VertexReadable(vertices, stride, nComponents, GetIndex(indices, e.end))
    ensures LineFloats(vertices, indices, stride, nComponents, e)
              == LineFloatsAsWritten(LeadingComponents(vertices, stride, GetIndex(indices, e.start), nComponents),
                                     LeadingComponents(vertices, stride, GetIndex(indices, e.end), nComponents))
  {
    PointIsCopiedEnd(vertices, stride, nComponents, GetIndex(indices, e.start));
    PointIsCopiedEnd(vertices, stride, nComponents, GetIndex(indices, e.end));
  }

  /** As written, the last float index add_line stores is the one its
      end layout reaches from `3 * *n_line_vertices`. */
  lemma LastFloatOfLayout(nLineVertices: nat, v0: seq<Float>, v1: seq<Float>)
    requires |v0| == |v1|
    ensures 3 * nLineVertices + |LineFloatsAsWritten(v0, v1)| - 1
              == AddLineLastFloatAsWritten(nLineVertices, |v0|)
  {
  }

  /** With four components the first end takes four floats, so the second
      CoglP3Vertex slot holds the first vertex's w and the second vertex's
      x and y instead of the second vertex's x, y and z. */
  lemma FourComponentEndPointsGarbled(v0: seq<Float>, v1: seq<Float>)
    requires |v0| == 4 && |v1| == 4
    ensures |LineFloatsAsWritten(v0, v1)| == 8
    ensures LineFloatsAsWritten(v0, v1)[..3] == v0[..3]
    ensures LineFloatsAsWritten(v0, v1)[3..6] == [v0[3], v1[0], v1[1]]
    ensures v0[3] != v1[0] ==> LineFloatsAsWritten(v0, v1)[3..6] != v1[..3]
  {
    var w := LineFloatsAsWritten(v0, v1);
    assert EndFloatsAsWritten(v0) == v0 && EndFloatsAsWritten(v1) == v1;
    assert w == v0 + v1;
    assert w[3..6] == [v0[3], v1[0], v1[1]];
    if v0[3] != v1[0] {
      assert w[3..6][0] != v1[..3][0];
    }
  }

  /** A zero stride is never refused, so with no index array every vertex
      of the draw is read at offset 0: a fan of 2^30 vertices over one
      12-byte vertex is readable, and its `n_lines * 2` exceeds a `gint`. */
  lemma StrideZeroFanOverflowsLineCount(vertices: seq<byte>)
    requires |vertices| >= 12
    ensures DrawReadable(vertices, None, 0, 3, 0x4000_0000)
    ensures Expands(TriangleFan, 0x4000_0000)
    ensures 2 * EdgeCount(TriangleFan, 0x4000_0000) > INT32_MAX
  {
    forall k | 0 <= k < 0x4000_0000
      ensures Readable(vertices, None, 0, 3, k)
    {
      assert GetIndex(None, k) == k;
      assert VertexOffset(k, 0) == 0;
    }
  }

  /** The wireframe of a single triangle drawn with a four-component
      "cogl_position_in" attribute, which creation accepts: the third
      add_line call stores float 19 while the buffer holds 18. */
  lemma FourComponentTriangleOverflows()
    ensures VertexAttributes.AttributeBinding("cogl_position_in", 4).Some?
    ensures 3 * (2 * |WireEdges(Triangles, 3)|) == 18
    ensures AddLineLastFloatAsWritten(4, 4) == 19
  {
    assert "cogl_position_in"[5..] == "position_in";
    assert VertexAttributes.HasCoglPrefix("cogl_position_in");
  }
}
