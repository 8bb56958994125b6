/**
 * Quad index generation (Minimal/src/Graphics/Renderer.c): fills an index
 * buffer with two triangles per quad, (0, 1, 2) and (2, 3, 0) of the quad's
 * four vertices, one block of `step` entries per quad. The running vertex
 * offset is a GLuint and wraps modulo 2^32.
 *
 * The loop as written stops while a whole block still fits
 * (`i < max - step`), so it leaves the last block unwritten:
 * GenerateIndicesAsWritten models that loop, GenerateIndices the intended
 * one (`i + step <= max`) that writes every block.
 */
module Renderer {
  import opened Common

  /** BATCHRENDERER2D_MAX_QUADS and BATCHRENDERER2D_INDICES_PER_QUAD: the batch's index buffer is 192 entries. */
  const MAX_QUADS: nat := 32
  const INDICES_PER_QUAD: nat := 6
  const INDEX_COUNT: nat := MAX_QUADS * INDICES_PER_QUAD

  /** The vertex (within its quad) that entry j of a quad's block refers to. */
  function Corner(j: nat): nat
    requires j < 6
  {
    match j
    case 0 => 0
    case 1 => 1
    case 2 => 2
    case 3 => 2
    case 4 => 3
    case 5 => 0
  }

  /** The value written at entry j of quad q's block. */
  function QuadIndex(q: nat, j: nat): U32
    requires j < 6
  {
    ToU32(4 * q + Corner(j))
  }

  /** Entry i lies in one of the first `quads` blocks and among the six entries a block writes. */
  predicate Written(i: nat, quads: nat, step: nat)
    requires step > 0
  {
    i < quads * step && i % step < 6
  }

  /** The number of blocks the loop as written fills: the i = step * q with i < max - step. */
  function QuadsAsWritten(max: nat, step: nat): nat
    requires step > 0 && max >= step
  {
    (max - 1) / step
  }

  /** The number of whole blocks that fit in max entries. */
  function Quads(max: nat, step: nat): nat
    requires step > 0
  {
    max / step
  }

  /** Entry k after filling the first `quads` blocks. */
  function Filled(old_: seq<U32>, k: nat, quads: nat, step: nat): U32
    requires step >= 6 && k < |old_|
  {
    if Written(k, quads, step) then QuadIndex(k / step, k % step) else old_[k]
  }

  /** Entries of block q sit at q * step + j: the quotient and remainder by step are unique. */
  lemma BlockPosition(q: nat, step: nat, j: nat)
    requires step > 0 && j < step
    ensures (q * step + j) / step == q && (q * step + j) % step == j
  {
    var k := q * step + j;
    var d, r := k / step, k % step;
    assert k == d * step + r && 0 <= r < step;
    assert (d + 1) * step == d * step + step;
    assert (q + 1) * step == q * step + step;
    MulMonotone(d + 1, q, step);
    MulMonotone(q + 1, d, step);
  }

  lemma {:induction false} MulMonotone(a: nat, b: nat, c: nat)
    ensures a <= b ==> a * c <= b * c
    decreases if a < b then b - a else 0
  {
    if a < b {
      MulMonotone(a + 1, b, c);
      assert (a + 1) * c == a * c + c;
    }
  }

  /** Adding the two halves of the offset modulo 2^32. */
  lemma WrapAdd(a: int, c: int)
    ensures ToU32(ToU32(a) + c) == ToU32(a + c)
  {
  }

  /**
   * Writes block q (at i = q * step) of the index buffer, given that the
   * blocks before it are written and nothing else has changed.
   */
  method WriteBlock(indices: array<U32>, ghost before: seq<U32>, i: nat, ghost q: nat, step: nat, offset: U32)
    requires step >= 6 && i == q * step && i + step <= indices.Length && |before| == indices.Length
    requires offset == ToU32(4 * q)
    requires forall k :: 0 <= k < indices.Length ==> indices[k] == Filled(before, k, q, step)
    modifies indices
    ensures forall k :: 0 <= k < indices.Length ==> indices[k] == Filled(before, k, q + 1, step)
  {
    OffsetValues(q, offset);
    indices[i + 0] := ToU32(offset + 0);
    indices[i + 1] := ToU32(offset + 1);
    indices[i + 2] := ToU32(offset + 2);

    indices[i + 3] := ToU32(offset + 2);
    indices[i + 4] := ToU32(offset + 3);
    indices[i + 5] := ToU32(offset + 0);
    forall k | 0 <= k < indices.Length
      ensures indices[k] == Filled(before, k, q + 1, step)
    {
      NextBlock(before, k, q, step);
    }
  }

  /** The six values of block q, computed from the wrapped offset. */
  lemma OffsetValues(q: nat, offset: U32)
    requires offset == ToU32(4 * q)
    ensures ToU32(offset + 0) == QuadIndex(q, 0) == QuadIndex(q, 5)
    ensures ToU32(offset + 1) == QuadIndex(q, 1)
    ensures ToU32(offset + 2) == QuadIndex(q, 2) == QuadIndex(q, 3)
    ensures ToU32(offset + 3) == QuadIndex(q, 4)
  {
    WrapAdd(4 * q, 0);
    WrapAdd(4 * q, 1);
    WrapAdd(4 * q, 2);
    WrapAdd(4 * q, 3);
  }

  /** Filling block q changes exactly the first six entries of that block. */
  lemma NextBlock(before: seq<U32>, k: nat, q: nat, step: nat)
    requires step >= 6 && k < |before|
    ensures q * step <= k < q * step + 6 ==> Filled(before, k, q + 1, step) == QuadIndex(q, k - q * step)
    ensures !(q * step <= k < q * step + 6) ==> Filled(before, k, q + 1, step) == Filled(before, k, q, step)
    ensures q * step <= k ==> Filled(before, k, q, step) == before[k]
  {
    assert (q + 1) * step == q * step + step;
    if q * step <= k < q * step + step {
      BlockPosition(q, step, k - q * step);
    }
  }

  /**
   * GenerateIndices as written: blocks at i = 0, step, 2 step, ... while
   * i < max - step. Requires max >= step (the size_t subtraction would wrap)
   * and step >= 6 (the six writes stay in their block).
   */
  method GenerateIndicesAsWritten(indices: array<U32>, max: nat, step: nat)
    requires step >= 6 && max >= step && max <= indices.Length
    modifies indices
    ensures forall k :: 0 <= k < indices.Length ==>
      indices[k] == Filled(old(indices[..]), k, QuadsAsWritten(max, step), step)
  {
    ghost var before := indices[..];
    var offset: U32 := 0;
    var i: nat := 0;
    ghost var q: nat := 0;
    while i < max - step
      invariant i == q * step && i < max && offset == ToU32(4 * q)
      invariant forall k :: 0 <= k < indices.Length ==> indices[k] == Filled(before, k, q, step)
      decreases max - i
    {
      WriteBlock(indices, before, i, q, step, offset);
      WrapAdd(4 * q, 4);
      offset := ToU32(offset + 4);
      assert (q + 1) * step == q * step + step;
      i, q := i + step, q + 1;
    }
    BlockPosition(q, step, max - 1 - i);
  }

  /** GenerateIndices as intended: one block for every whole block that fits in max entries. */
  method GenerateIndices(indices: array<U32>, max: nat, step: nat)
    requires step >= 6 && max <= indices.Length
    modifies indices
    ensures forall k :: 0 <= k < indices.Length ==>
      indices[k] == Filled(old(indices[..]), k, Quads(max, step), step)
  {
    ghost var before := indices[..];
    var offset: U32 := 0;
    var i: nat := 0;
    ghost var q: nat := 0;
    while i + step <= max
      invariant i == q * step && i <= max && offset == ToU32(4 * q)
      invariant forall k :: 0 <= k < indices.Length ==> indices[k] == Filled(before, k, q, step)
      decreases max - i
    {
      WriteBlock(indices, before, i, q, step, offset);
      WrapAdd(4 * q, 4);
      offset := ToU32(offset + 4);
      assert (q + 1) * step == q * step + step;
      i, q := i + step, q + 1;
    }
    BlockPosition(q, step, max - i);
  }

  // ---------------------------------------------------------------------------
  // Properties

  /**
   * For the batch renderer's buffer (192 entries, blocks of 6) the loop as
   * written fills 31 quads and leaves entries 186..191 unwritten, although
   * a batch draws up to 32 quads; the intended loop fills all 32.
   */
  lemma LastQuadSkipped()
    ensures QuadsAsWritten(INDEX_COUNT, INDICES_PER_QUAD) == MAX_QUADS - 1
    ensures forall k :: 186 <= k < INDEX_COUNT ==> !Written(k, QuadsAsWritten(INDEX_COUNT, INDICES_PER_QUAD), INDICES_PER_QUAD)
    ensures Quads(INDEX_COUNT, INDICES_PER_QUAD) == MAX_QUADS
    ensures forall k :: 0 <= k < INDEX_COUNT ==> Written(k, Quads(INDEX_COUNT, INDICES_PER_QUAD), INDICES_PER_QUAD)
  {
  }

  /** Whenever max is a whole number of blocks, the loop as written fills one block fewer than fit. */
  lemma AlwaysOneShort(quads: nat, step: nat)
    requires step >= 6 && quads >= 1
    ensures QuadsAsWritten(quads * step, step) == quads - 1
    ensures Quads(quads * step, step) == quads
  {
    BlockPosition(quads - 1, step, step - 1);
    assert quads * step - 1 == (quads - 1) * step + (step - 1);
    BlockPosition(quads, step, 0);
  }

  /**
   * Each written entry names a vertex of its own quad: block q refers to
   * vertices 4q..4q+3 only, so below 2^32 vertices every value is under
   * 4 * (number of quads written), and the two triangles share the quad's
   * diagonal from corner 0 to corner 2.
   */
  lemma IndicesStayInQuad(k: nat, quads: nat, step: nat)
    requires step >= 6 && Written(k, quads, step) && 4 * quads <= TWO32
    ensures 4 * (k / step) <= QuadIndex(k / step, k % step) < 4 * (k / step) + 4
    ensures QuadIndex(k / step, k % step) < 4 * quads
  {
    var q := k / step;
    MulMonotone(quads, q, step);
    assert q * step <= k;
    assert q < quads;
  }

  /** The two triangles of a quad: (0, 1, 2) and (2, 3, 0), covering all four corners. */
  lemma TrianglesOfAQuad(q: nat)
    ensures QuadIndex(q, 2) == QuadIndex(q, 3) && QuadIndex(q, 0) == QuadIndex(q, 5)
    ensures 4 * q + 4 <= TWO32 ==>
      {QuadIndex(q, 0), QuadIndex(q, 1), QuadIndex(q, 2), QuadIndex(q, 4)} == {4 * q, 4 * q + 1, 4 * q + 2, 4 * q + 3}
  {
  }
}
