/**
 * The CPU side of the 2D primitive renderer (Minimal/src/Graphics/Primitives2D.c):
 * two vertex batches, one drawn as GL_LINES and one as GL_TRIANGLES, each a
 * fixed float buffer that is drawn and emptied when a vertex finds it full;
 * and the emitters that turn lines, rectangles, polygons and circles into
 * vertices of those batches. A vertex is six floats: position (x, y) and
 * colour (r, g, b, a). Floats are modelled as reals; sinf and cosf of the
 * circle step are parameters; the GL side of a flush is one recorded Draw.
 *
 * Primitives2DFillPolygon steps its index by one raw coordinate and bounds
 * it with a size_t `count - 3`: FillPolygonAsWritten models that loop,
 * FillPolygon the intended triangle fan over whole points.
 */
module Primitives {
  import opened Common

  const VERTEX_SIZE: nat := 2 + 4
  const LINES_MAX_VERTICES: nat := 2 * 1024
  const TRIANGLES_MAX_VERTICES: nat := 3 * 1024
  const LINES_BUFFER_SIZE: nat := VERTEX_SIZE * LINES_MAX_VERTICES
  const TRIANGLES_BUFFER_SIZE: nat := VERTEX_SIZE * TRIANGLES_MAX_VERTICES
  const K_SEGMENTS: nat := 36
  const TWO64: int := 0x1_0000_0000_0000_0000

  /** IgnisColorRGBA */
  datatype Colour = Colour(r: real, g: real, b: real, a: real)

  /** One glDrawArrays: the vertex data uploaded and the number of vertices drawn. */
  datatype Draw = Draw(vertexData: seq<real>, vertexCount: nat)

  /** The six floats of one vertex. */
  function Vertex(x: real, y: real, c: Colour): (r: seq<real>)
    ensures |r| == VERTEX_SIZE
  {
    [x, y, c.r, c.g, c.b, c.a]
  }

  /** A line: its two end vertices. */
  function Line(p: (real, real), q: (real, real), c: Colour): (r: seq<real>)
    ensures |r| == 2 * VERTEX_SIZE
  {
    Vertex(p.0, p.1, c) + Vertex(q.0, q.1, c)
  }

  /** A triangle: its three vertices. */
  function Triangle(p: (real, real), q: (real, real), s: (real, real), c: Colour): (r: seq<real>)
    ensures |r| == 3 * VERTEX_SIZE
  {
    Vertex(p.0, p.1, c) + Vertex(q.0, q.1, c) + Vertex(s.0, s.1, c)
  }

  /** Everything a batch has drawn, in order. */
  function Flatten(draws: seq<Draw>): seq<real>
  {
    if |draws| == 0 then [] else Flatten(draws[..|draws| - 1]) + draws[|draws| - 1].vertexData
  }

  /** Primitives2DLines and Primitives2DTriangles: a vertex buffer of `size` floats, the floats used, the draws issued. */
  class VertexBatch {
    const size: nat
    var vertices: array<real>
    var vertexCount: nat
    var draws: seq<Draw>

    ghost predicate Valid()
      reads this
    {
      vertices.Length == size && size > 0 && size % VERTEX_SIZE == 0 &&
      vertexCount <= size && vertexCount % VERTEX_SIZE == 0
    }

    /** The floats not yet drawn. */
    function Pending(): seq<real>
      reads this, vertices
      requires vertexCount <= vertices.Length
    {
      vertices[..vertexCount]
    }

    /** Every float this batch has been given: those drawn, then those pending. */
    function Stream(): seq<real>
      reads this, vertices
      requires vertexCount <= vertices.Length
    {
      Flatten(draws) + Pending()
    }

    /** Primitives2DLinesCreate / Primitives2DTrianglesCreate: an empty buffer of `size` floats. */
    constructor (size: nat)
      requires size > 0 && size % VERTEX_SIZE == 0
      ensures Valid() && this.size == size && vertexCount == 0 && draws == [] && Stream() == []
    {
      this.size := size;
      vertices := new real[size](_ => 0.0);
      vertexCount := 0;
      draws := [];
    }

    /**
     * Primitives2DLinesFlush / Primitives2DTrianglesFlush: nothing when
     * empty; otherwise the pending floats are drawn as count / 6 vertices
     * and the batch is emptied. What has been given is not changed.
     */
    method Flush()
      requires Valid()
      modifies this`vertexCount, this`draws
      ensures Valid() && vertexCount == 0 && Stream() == old(Stream())
      ensures draws == old(draws) + (if old(vertexCount) == 0 then [] else [Draw(old(Pending()), old(vertexCount) / VERTEX_SIZE)])
    {
      if vertexCount == 0 {
        return;
      }
      draws := draws + [Draw(vertices[..vertexCount], vertexCount / VERTEX_SIZE)];
      vertexCount := 0;
      assert Flatten(draws) == Flatten(old(draws)) + old(Pending());
    }

    /**
     * Primitives2DLinesVertex / Primitives2DTrianglesVertex: a full buffer
     * is flushed first, then the vertex's six floats are appended.
     */
    method AddVertex(x: real, y: real, c: Colour)
      requires Valid()
      modifies this`vertexCount, this`draws, vertices
      ensures Valid() && Stream() == old(Stream()) + Vertex(x, y, c)
      ensures draws == old(draws) + (if old(vertexCount) >= size then [Draw(old(Pending()), old(vertexCount) / VERTEX_SIZE)] else [])
    {
      if vertexCount >= size {
        Flush();
      }
      Put(x, y, c);
    }

    /** The six stores of one vertex into a buffer with room for them. */
    method Put(x: real, y: real, c: Colour)
      requires Valid() && vertexCount + VERTEX_SIZE <= size
      modifies this`vertexCount, vertices
      ensures Valid() && Pending() == old(Pending()) + Vertex(x, y, c)
    {
      ghost var after := Pending() + Vertex(x, y, c);
      vertices[vertexCount] := x;
      vertices[vertexCount + 1] := y;
      vertices[vertexCount + 2] := c.r;
      vertices[vertexCount + 3] := c.g;
      vertices[vertexCount + 4] := c.b;
      vertices[vertexCount + 5] := c.a;
      vertexCount := vertexCount + VERTEX_SIZE;
      assert forall k :: 0 <= k < vertexCount ==> vertices[k] == after[k];
    }

    /** Two vertices: one line of GL_LINES. */
    method AddLine(p: (real, real), q: (real, real), c: Colour)
      requires Valid()
      modifies this`vertexCount, this`draws, vertices
      ensures Valid() && Stream() == old(Stream()) + Line(p, q, c)
    {
      AddVertex(p.0, p.1, c);
      AddVertex(q.0, q.1, c);
    }

    /** Three vertices: one triangle of GL_TRIANGLES. */
    method AddTriangle(p: (real, real), q: (real, real), s: (real, real), c: Colour)
      requires Valid()
      modifies this`vertexCount, this`draws, vertices
      ensures Valid() && Stream() == old(Stream()) + Triangle(p, q, s, c)
    {
      AddVertex(p.0, p.1, c);
      AddVertex(q.0, q.1, c);
      AddVertex(s.0, s.1, c);
    }
  }

  /** Primitives2DFlush: both batches. */
  method FlushAll(lines: VertexBatch, triangles: VertexBatch)
    requires lines.Valid() && triangles.Valid() && lines != triangles
    modifies lines`vertexCount, lines`draws, triangles`vertexCount, triangles`draws
    ensures lines.Valid() && triangles.Valid() && lines.vertexCount == 0 && triangles.vertexCount == 0
    ensures lines.Stream() == old(lines.Stream()) && triangles.Stream() == old(triangles.Stream())
  {
    lines.Flush();
    triangles.Flush();
  }

  // ---------------------------------------------------------------------------
  // Lines

  /** Primitives2DRenderLine: one line, two line vertices. */
  method RenderLine(lines: VertexBatch, x1: real, y1: real, x2: real, y2: real, c: Colour)
    requires lines.Valid()
    modifies lines`vertexCount, lines`draws, lines.vertices
    ensures lines.Valid() && lines.Stream() == old(lines.Stream()) + Line((x1, y1), (x2, y2), c)
  {
    lines.AddVertex(x1, y1, c);
    lines.AddVertex(x2, y2, c);
  }

  /** Where segment k of a polygon starts: the last point for k = 0, else the point before. */
  function SegmentStart(v: seq<real>, count: nat, k: nat): (real, real)
    requires 2 <= count <= |v| && 2 * k < count
  {
    if k == 0 then (v[count - 2], v[count - 1]) else (v[2 * k - 2], v[2 * k - 1])
  }

  /** Where segment k ends: point k. */
  function SegmentEnd(v: seq<real>, count: nat, k: nat): (real, real)
    requires 2 <= count <= |v| && 2 * k + 1 < count
  {
    (v[2 * k], v[2 * k + 1])
  }

  /** The first n segments of the outline of the polygon with `count` coordinates. */
  function PolygonLines(v: seq<real>, count: nat, n: nat, c: Colour): (r: seq<real>)
    requires 2 <= count <= |v| && 2 * n <= count
    ensures |r| == n * 2 * VERTEX_SIZE
  {
    if n == 0 then []
    else (PolygonLines(v, count, n - 1, c) + Line(SegmentStart(v, count, n - 1), SegmentEnd(v, count, n - 1), c))
  }

  /**
   * Primitives2DRenderPolygon: nothing for a NULL array or fewer than two
   * coordinates; otherwise count / 2 segments, segment k joining point
   * k - 1 (the last point for k = 0) to point k.
   */
  method RenderPolygon(lines: VertexBatch, vertices: Option<seq<real>>, count: nat, c: Colour)
    requires lines.Valid() && (vertices.Some? ==> count <= |vertices.value|)
    modifies lines`vertexCount, lines`draws, lines.vertices
    ensures lines.Valid()
    ensures lines.Stream() == old(lines.Stream()) +
      (if vertices.None? || count < 2 then [] else PolygonLines(vertices.value, count, count / 2, c))
  {
    if vertices.None? || count < 2 {
      return;
    }
    PolygonOutline(lines, vertices.value, count, c);
  }

  /** The loop of Primitives2DRenderPolygon over a non-NULL array of at least two coordinates. */
  method PolygonOutline(lines: VertexBatch, v: seq<real>, count: nat, c: Colour)
    requires lines.Valid() && 2 <= count <= |v|
    modifies lines`vertexCount, lines`draws, lines.vertices
    ensures lines.Valid() && lines.Stream() == old(lines.Stream()) + PolygonLines(v, count, count / 2, c)
  {
    ghost var start := lines.Stream();
    var p1 := (v[count - 2], v[count - 1]);
    var i := 0;
    ghost var n := 0;
    while i < count - 1
      invariant i == 2 * n && i <= count
      invariant i + 1 < count ==> p1 == SegmentStart(v, count, n)
      invariant lines.Valid() && lines.Stream() == start + PolygonLines(v, count, n, c)
    {
      var p2 := (v[i], v[i + 1]);
      assert PolygonLines(v, count, n + 1, c) == PolygonLines(v, count, n, c) + Line(p1, p2, c);
      lines.AddLine(p1, p2, c);
      i, n := i + 2, n + 1;
      p1 := p2;
    }
    assert n == count / 2;
  }

  /** The coordinates Primitives2DRenderRect passes: the corners counter-clockwise from (x, y). */
  function RectVertices(x: real, y: real, w: real, h: real): (r: seq<real>)
    ensures |r| == 8
  {
    [x + 0.0, y + 0.0, x + w, y + 0.0, x + w, y + h, x + 0.0, y + h]
  }

  /** Primitives2DRenderRect: the rectangle's outline as a four-point polygon. */
  method RenderRect(lines: VertexBatch, x: real, y: real, w: real, h: real, c: Colour)
    requires lines.Valid()
    modifies lines`vertexCount, lines`draws, lines.vertices
    ensures lines.Valid() && lines.Stream() == old(lines.Stream()) + PolygonLines(RectVertices(x, y, w, h), 8, 4, c)
  {
    RenderPolygon(lines, Some(RectVertices(x, y, w, h)), 8, c);
  }

  /** The unit vector after k steps of the rotation by the angle with sine s and cosine co, from (1, 0). */
  function Rotation(k: nat, s: real, co: real): (real, real)
  {
    if k == 0 then (1.0, 0.0)
    else Rotate(Rotation(k - 1, s, co), s, co)
  }

  /** One step of the rotation: the body of the circle loops. */
  function Rotate(r: (real, real), s: real, co: real): (real, real)
  {
    (co * r.0 - s * r.1, s * r.0 + co * r.1)
  }

  /** The point at `radius` times the unit vector r from the centre (x, y). */
  function Place(x: real, y: real, radius: real, r: (real, real)): (real, real)
  {
    (x + radius * r.0, y + radius * r.1)
  }

  /** Point k of a circle: the centre plus radius times the rotated unit vector. */
  function CirclePoint(x: real, y: real, radius: real, k: nat, s: real, co: real): (real, real)
  {
    Place(x, y, radius, Rotation(k, s, co))
  }

  /** The first n segments of a circle's outline: from point k to point k + 1. */
  function CircleLines(x: real, y: real, radius: real, s: real, co: real, n: nat, c: Colour): (r: seq<real>)
    ensures |r| == n * 2 * VERTEX_SIZE
  {
    if n == 0 then []
    else (CircleLines(x, y, radius, s, co, n - 1, c) +
      Line(CirclePoint(x, y, radius, n - 1, s, co), CirclePoint(x, y, radius, n, s, co), c))
  }

  /**
   * Primitives2DRenderCircle: 36 segments around the circle, each step
   * rotating the previous unit vector; `sinInc` and `cosInc` are sinf and
   * cosf of 2 pi / 36.
   */
  method RenderCircle(lines: VertexBatch, x: real, y: real, radius: real, sinInc: real, cosInc: real, c: Colour)
    requires lines.Valid()
    modifies lines`vertexCount, lines`draws, lines.vertices
    ensures lines.Valid() && lines.Stream() == old(lines.Stream()) + CircleLines(x, y, radius, sinInc, cosInc, K_SEGMENTS, c)
  {
    var r1 := (1.0, 0.0);
    var v1 := Place(x, y, radius, r1);
    for i := 0 to K_SEGMENTS
      invariant r1 == Rotation(i, sinInc, cosInc)
      invariant v1 == CirclePoint(x, y, radius, i, sinInc, cosInc)
      invariant lines.Valid() && lines.Stream() == old(lines.Stream()) + CircleLines(x, y, radius, sinInc, cosInc, i, c)
    {
      var r2 := Rotate(r1, sinInc, cosInc);
      var v2 := Place(x, y, radius, r2);
      lines.AddLine(v1, v2, c);
      r1, v1 := r2, v2;
    }
  }

  // ---------------------------------------------------------------------------
  // Triangles

  /** Primitives2DFillRect: two triangles, (x, y)-(x+w, y)-(x+w, y+h) and (x+w, y+h)-(x, y+h)-(x, y). */
  method FillRect(triangles: VertexBatch, x: real, y: real, w: real, h: real, c: Colour)
    requires triangles.Valid()
    modifies triangles`vertexCount, triangles`draws, triangles.vertices
    ensures triangles.Valid()
    ensures triangles.Stream() == old(triangles.Stream()) +
      Triangle((x, y), (x + w, y), (x + w, y + h), c) + Triangle((x + w, y + h), (x, y + h), (x, y), c)
  {
    triangles.AddTriangle((x + 0.0, y + 0.0), (x + w, y + 0.0), (x + w, y + h), c);
    triangles.AddTriangle((x + w, y + h), (x + 0.0, y + h), (x + 0.0, y + 0.0), c);
  }

  /** The size_t bound `count - 3` of Primitives2DFillPolygon, which wraps below 3. */
  function FillBoundAsWritten(count: nat): nat
  {
    (count - 3) % TWO64
  }

  /** The triangle the loop as written emits for raw index i: coordinates 0-1, i-(i+1) and (i+2)-(i+3). */
  function FillTriangleAsWritten(v: seq<real>, i: nat, c: Colour): seq<real>
    requires i + 3 < |v|
  {
    Triangle((v[0], v[1]), (v[i], v[i + 1]), (v[i + 2], v[i + 3]), c)
  }

  /** The triangles for raw indices 2 .. 2 + m - 1. */
  function FillAsWritten(v: seq<real>, m: nat, c: Colour): (r: seq<real>)
    requires m + 4 < |v| || m == 0
    ensures |r| == m * 3 * VERTEX_SIZE
  {
    if m == 0 then [] else FillAsWritten(v, m - 1, c) + FillTriangleAsWritten(v, m + 1, c)
  }

  /** The number of triangles the loop as written emits for count >= 3: one per i in 2 .. count - 4. */
  function FillCountAsWritten(count: nat): nat
  {
    if count >= 5 then count - 5 else 0
  }

  /**
   * Primitives2DFillPolygon as written: i runs by single coordinates from
   * 2 while i < count - 3 (a size_t). For count = 2 the bound wraps to
   * 2^64 - 1 and the loop reads past the array, so that count is excluded
   * here.
   */
  method FillPolygonAsWritten(triangles: VertexBatch, vertices: Option<seq<real>>, count: nat, c: Colour)
    requires triangles.Valid() && (vertices.Some? ==> count <= |vertices.value|) && count != 2 && count < TWO64
    modifies triangles`vertexCount, triangles`draws, triangles.vertices
    ensures triangles.Valid()
    ensures triangles.Stream() == old(triangles.Stream()) +
      (if vertices.None? || count < 2 then [] else FillAsWritten(vertices.value, FillCountAsWritten(count), c))
  {
    if vertices.None? || count < 2 {
      return;
    }
    var bound := FillBoundAsWritten(count);
    assert bound == count - 3;
    FillLoopAsWritten(triangles, vertices.value, bound, c);
  }

  /** The loop of Primitives2DFillPolygon as written, for i from 2 while i < bound. */
  method FillLoopAsWritten(triangles: VertexBatch, v: seq<real>, bound: nat, c: Colour)
    requires triangles.Valid() && bound + 3 <= |v|
    modifies triangles`vertexCount, triangles`draws, triangles.vertices
    ensures triangles.Valid()
    ensures triangles.Stream() == old(triangles.Stream()) + FillAsWritten(v, if bound >= 2 then bound - 2 else 0, c)
  {
    ghost var start := triangles.Stream();
    var i := 2;
    while i < bound
      invariant 2 <= i && (i <= bound || i == 2)
      invariant triangles.Valid() && triangles.Stream() == start + FillAsWritten(v, i - 2, c)
    {
      triangles.AddTriangle((v[0], v[1]), (v[i + 0], v[i + 1]), (v[i + 2], v[i + 3]), c);
      i := i + 1;
    }
  }

  /** Point k of a polygon with coordinates v. */
  function Point(v: seq<real>, k: nat): (real, real)
    requires 2 * k + 1 < |v|
  {
    (v[2 * k], v[2 * k + 1])
  }

  /** The first m triangles of the fan from point 0: (p0, p(k), p(k+1)) for k = 1 .. m. */
  function Fan(v: seq<real>, m: nat, c: Colour): (r: seq<real>)
    requires 2 * m + 3 < |v| || m == 0
    ensures |r| == m * 3 * VERTEX_SIZE
  {
    if m == 0 then [] else Fan(v, m - 1, c) + Triangle(Point(v, 0), Point(v, m), Point(v, m + 1), c)
  }

  /** The number of fan triangles of a polygon with count coordinates: its points less two. */
  function FanCount(count: nat): nat
  {
    if count / 2 >= 3 then count / 2 - 2 else 0
  }

  /**
   * Primitives2DFillPolygon as intended: the triangle fan from the first
   * point over whole points, (p0, p(k), p(k+1)) for k = 1 .. points - 2.
   */
  method FillPolygon(triangles: VertexBatch, vertices: Option<seq<real>>, count: nat, c: Colour)
    requires triangles.Valid() && (vertices.Some? ==> count <= |vertices.value|)
    modifies triangles`vertexCount, triangles`draws, triangles.vertices
    ensures triangles.Valid()
    ensures triangles.Stream() == old(triangles.Stream()) +
      (if vertices.None? || count < 2 then [] else Fan(vertices.value[..count], FanCount(count), c))
  {
    if vertices.None? || count < 2 {
      return;
    }
    var v := vertices.value[..count];
    var k := FanLoop(triangles, v, c);
    FanEnd(count, k);
  }

  /** The loop of the intended fan: triangles (p0, p(k), p(k+1)) while point k + 1 exists; returns the k it stops at. */
  method FanLoop(triangles: VertexBatch, v: seq<real>, c: Colour) returns (k: nat)
    requires triangles.Valid()
    modifies triangles`vertexCount, triangles`draws, triangles.vertices
    ensures 1 <= k && (k == 1 || 2 * k + 1 < |v|) && 2 * k + 3 >= |v|
    ensures triangles.Valid() && triangles.Stream() == old(triangles.Stream()) + Fan(v, k - 1, c)
  {
    ghost var start := triangles.Stream();
    k := 1;
    while 2 * k + 3 < |v|
      invariant 1 <= k && (k == 1 || 2 * k + 1 < |v|)
      invariant triangles.Valid() && triangles.Stream() == start + Fan(v, k - 1, c)
    {
      triangles.AddTriangle(Point(v, 0), Point(v, k), Point(v, k + 1), c);
      k := k + 1;
    }
  }

  /** Where the fan loop stops on count coordinates it has emitted FanCount(count) triangles. */
  lemma FanEnd(count: nat, k: nat)
    requires 1 <= k && (k == 1 || 2 * k + 1 < count) && 2 * k + 3 >= count
    ensures k - 1 == FanCount(count)
  {
  }

  /** The first n triangles of a filled circle: (centre, point k, point k + 1). */
  function CircleFan(x: real, y: real, radius: real, s: real, co: real, n: nat, c: Colour): (r: seq<real>)
    ensures |r| == n * 3 * VERTEX_SIZE
  {
    if n == 0 then []
    else (CircleFan(x, y, radius, s, co, n - 1, c) +
      Triangle((x, y), CirclePoint(x, y, radius, n - 1, s, co), CirclePoint(x, y, radius, n, s, co), c))
  }

  /** Primitives2DFillCircle: 36 triangles from the centre, stepping as in RenderCircle. */
  method FillCircle(triangles: VertexBatch, x: real, y: real, radius: real, sinInc: real, cosInc: real, c: Colour)
    requires triangles.Valid()
    modifies triangles`vertexCount, triangles`draws, triangles.vertices
    ensures triangles.Valid() && triangles.Stream() == old(triangles.Stream()) + CircleFan(x, y, radius, sinInc, cosInc, K_SEGMENTS, c)
  {
    var r1 := (1.0, 0.0);
    var v1 := Place(x, y, radius, r1);
    for i := 0 to K_SEGMENTS
      invariant r1 == Rotation(i, sinInc, cosInc)
      invariant v1 == CirclePoint(x, y, radius, i, sinInc, cosInc)
      invariant triangles.Valid() && triangles.Stream() == old(triangles.Stream()) + CircleFan(x, y, radius, sinInc, cosInc, i, c)
    {
      var r2 := Rotate(r1, sinInc, cosInc);
      var v2 := Place(x, y, radius, r2);
      triangles.AddTriangle((x, y), v1, v2, c);
      r1, v1 := r2, v2;
    }
  }

  // ---------------------------------------------------------------------------
  // Properties

  /**
   * Both buffer sizes are whole numbers of vertices, so a batch never holds
   * part of a vertex and a flush draws count / 6 whole vertices.
   */
  lemma BufferSizesHoldWholeVertices()
    ensures LINES_BUFFER_SIZE % VERTEX_SIZE == 0 && TRIANGLES_BUFFER_SIZE % VERTEX_SIZE == 0
    ensures LINES_BUFFER_SIZE / VERTEX_SIZE == 2048 && TRIANGLES_BUFFER_SIZE / VERTEX_SIZE == 3072
  {
  }

  /**
   * A polygon's outline is connected: each segment starts where the one
   * before it ends, and with an even number of coordinates the last
   * segment ends where the first starts, so the outline is closed.
   */
  lemma PolygonOutlineCloses(v: seq<real>, count: nat, k: nat)
    requires 2 <= count <= |v| && count % 2 == 0 && 2 * k + 3 < count
    ensures SegmentStart(v, count, k + 1) == SegmentEnd(v, count, k)
    ensures SegmentEnd(v, count, count / 2 - 1) == SegmentStart(v, count, 0)
  {
  }

  /**
   * A rectangle's outline is its four sides, starting with the left side
   * from the top-left corner down to (x, y) and going round counter-clockwise.
   */
  lemma RectOutline(x: real, y: real, w: real, h: real, c: Colour)
    ensures PolygonLines(RectVertices(x, y, w, h), 8, 4, c) ==
      Line((x, y + h), (x, y), c) + Line((x, y), (x + w, y), c) +
      Line((x + w, y), (x + w, y + h), c) + Line((x + w, y + h), (x, y + h), c)
  {
    var v := RectVertices(x, y, w, h);
    assert PolygonLines(v, 8, 1, c) == Line((x, y + h), (x, y), c);
    assert PolygonLines(v, 8, 2, c) == PolygonLines(v, 8, 1, c) + Line((x, y), (x + w, y), c);
    assert PolygonLines(v, 8, 3, c) == PolygonLines(v, 8, 2, c) + Line((x + w, y), (x + w, y + h), c);
    assert PolygonLines(v, 8, 4, c) == PolygonLines(v, 8, 3, c) + Line((x + w, y + h), (x, y + h), c);
  }

  /** The squared length of a vector. */
  function Norm(r: (real, real)): real
  {
    r.0 * r.0 + r.1 * r.1
  }

  /** A rotation step scales the squared length by s^2 + co^2. */
  lemma RotateNorm(r: (real, real), s: real, co: real)
    ensures Norm(Rotate(r, s, co)) == (s * s + co * co) * Norm(r)
  {
  }

  /**
   * With exact sine and cosine (s^2 + co^2 = 1) every step is a rotation:
   * each point the circle routines emit lies at distance `radius` from the
   * centre.
   */
  lemma {:induction false} RotationStaysOnCircle(k: nat, s: real, co: real)
    requires s * s + co * co == 1.0
    ensures Norm(Rotation(k, s, co)) == 1.0
  {
    if k > 0 {
      var r := Rotation(k - 1, s, co);
      RotationStaysOnCircle(k - 1, s, co);
      RotateNorm(r, s, co);
    }
  }

  /** A circle is drawn as exactly 36 segments (72 line vertices) or 36 triangles (108 vertices), from (x + radius, y). */
  lemma CircleCounts(x: real, y: real, radius: real, s: real, co: real, c: Colour)
    ensures |CircleLines(x, y, radius, s, co, K_SEGMENTS, c)| == 2 * K_SEGMENTS * VERTEX_SIZE
    ensures |CircleFan(x, y, radius, s, co, K_SEGMENTS, c)| == 3 * K_SEGMENTS * VERTEX_SIZE
    ensures CirclePoint(x, y, radius, 0, s, co) == (x + radius, y)
  {
  }

  /**
   * The fill loop as written: for count = 2 its bound wraps to 2^64 - 1, so
   * the first pass reads coordinates 2 to 5 of a two-coordinate array; for
   * a rectangle (8 coordinates) it emits 3 triangles instead of 2, and the
   * middle one takes (v[3], v[4]) = (10, 1) as a point, which is none of
   * the rectangle's corners (0, 10), (1, 10), (1, 12), (0, 12).
   */
  lemma FillPolygonMisaligned(c: Colour)
    ensures FillBoundAsWritten(2) == TWO64 - 1 && 2 < FillBoundAsWritten(2)
    ensures var v := [0.0, 10.0, 1.0, 10.0, 1.0, 12.0, 0.0, 12.0];
      && FillCountAsWritten(8) == 3 && FanCount(8) == 2
      && FillTriangleAsWritten(v, 3, c)[VERTEX_SIZE..VERTEX_SIZE + 2] == [10.0, 1.0]
      && forall k :: 0 <= k < 4 ==> Point(v, k) != (10.0, 1.0)
  {
  }

  /**
   * On a triangle (6 coordinates), the one case the written loop gets
   * right, the intended fan and the loop as written emit the same single
   * triangle of the three points.
   */
  lemma FanAgreesOnATriangle(v: seq<real>, c: Colour)
    requires |v| == 6
    ensures FanCount(6) == 1 && FillCountAsWritten(6) == 1
    ensures Fan(v, 1, c) == FillAsWritten(v, 1, c) == Triangle(Point(v, 0), Point(v, 1), Point(v, 2), c)
  {
  }

  /** The point the j-th vertex of the fan is: point 0 first in each triangle, then points t + 1 and t + 2 of triangle t. */
  function FanCorner(j: nat): nat
  {
    if j % 3 == 0 then 0 else j / 3 + j % 3
  }

  /** Every vertex of the intended fan is a whole point of the polygon: vertex j is point FanCorner(j). */
  lemma {:induction false} FanVerticesArePoints(v: seq<real>, m: nat, c: Colour, j: nat)
    requires 2 * m + 3 < |v| && j < 3 * m
    ensures FanCorner(j) <= m + 1
    ensures Fan(v, m, c)[j * VERTEX_SIZE] == Point(v, FanCorner(j)).0
    ensures Fan(v, m, c)[j * VERTEX_SIZE + 1] == Point(v, FanCorner(j)).1
  {
    var prev := Fan(v, m - 1, c);
    var t := Triangle(Point(v, 0), Point(v, m), Point(v, m + 1), c);
    assert Fan(v, m, c) == prev + t;
    if j < 3 * (m - 1) {
      FanVerticesArePoints(v, m - 1, c, j);
      assert (prev + t)[j * VERTEX_SIZE] == prev[j * VERTEX_SIZE];
      assert (prev + t)[j * VERTEX_SIZE + 1] == prev[j * VERTEX_SIZE + 1];
    } else {
      var o := (j - 3 * (m - 1)) * VERTEX_SIZE;
      assert j / 3 == m - 1;
      assert (prev + t)[j * VERTEX_SIZE] == t[o] && (prev + t)[j * VERTEX_SIZE + 1] == t[o + 1];
    }
  }
}
