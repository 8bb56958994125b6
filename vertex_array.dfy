/**
 * The bookkeeping of an Ignis vertex array (Minimal/src/Ignis/VertexArray.c):
 * a growable array of array buffers (initial capacity 4, doubled when full),
 * one element buffer, and the vertex attribute layout computed from a list
 * of buffer elements.
 *
 * OpenGL is reduced to what the bookkeeping sees: the name glGenBuffers
 * hands back is a parameter (0 means generation failed, as
 * ignisGenerateBuffer returns that name), whether ignisMalloc/ignisRealloc
 * succeed is a parameter, and the attribute pointers set up are recorded.
 * The GL enumerants are the values of the OpenGL headers.
 *
 * _ignisInsertArrayBuffer doubles `capacity` before it knows that the
 * reallocation succeeded; when it fails, `capacity` no longer matches the
 * allocation. InsertArrayBufferAsWritten models that code;
 * InsertArrayBuffer assigns the capacity only after a successful
 * reallocation, and is the one the layout code uses.
 */
module VertexArray {
  import opened Common

  const INITIAL_SIZE: nat := 4
  const GROWTH_FACTOR: nat := 2

  const GL_INT: U32 := 0x1404
  const GL_UNSIGNED_INT: U32 := 0x1405
  const GL_FLOAT: U32 := 0x1406
  const GL_ARRAY_BUFFER: U32 := 0x8892
  const GL_ELEMENT_ARRAY_BUFFER: U32 := 0x8893

  /** IgnisBuffer */
  datatype Buffer = Buffer(name: U32, target: U32)

  /** IgnisBufferElement: a GL type, a component count (a GLsizei) and the normalised flag. */
  datatype BufferElement = BufferElement(glType: U32, count: I32, normalized: bool)

  /** One glVertexAttribPointer call: index, size, type, normalised, stride and byte offset. */
  datatype Attrib = Attrib(index: U32, size: I32, glType: U32, normalized: bool, stride: U32, offset: U32)

  /** ignisGetOpenGLTypeSize (Minimal/src/Ignis/Ignis.c): 4 bytes for float, int and unsigned int, else 0. */
  function TypeSize(glType: U32): (r: nat)
    ensures r == 4 <==> glType in {GL_FLOAT, GL_INT, GL_UNSIGNED_INT}
    ensures r == 0 <==> glType !in {GL_FLOAT, GL_INT, GL_UNSIGNED_INT}
  {
    if glType == GL_FLOAT || glType == GL_INT || glType == GL_UNSIGNED_INT then 4 else 0
  }

  /** The bytes one element takes: its type size times its count (an unsigned product in C, here kept exact). */
  function ElementSize(e: BufferElement): int
  {
    TypeSize(e.glType) * e.count
  }

  /** The bytes the elements take together. */
  function SumSizes(layout: seq<BufferElement>): int
  {
    if |layout| == 0 then 0 else SumSizes(layout[..|layout| - 1]) + ElementSize(layout[|layout| - 1])
  }

  /** The attribute pointers for `layout`, from attribute index `first`, each at the sum of the sizes before it. */
  function Attribs(layout: seq<BufferElement>, first: U32, stride: U32): (r: seq<Attrib>)
    ensures |r| == |layout|
  {
    if |layout| == 0 then []
    else Attribs(layout[..|layout| - 1], first, stride) + [AttribAt(layout, first, stride, |layout| - 1)]
  }

  /** The attribute for element i: index first + i, offset the sum of the sizes before it. */
  function AttribAt(layout: seq<BufferElement>, first: U32, stride: U32, i: nat): Attrib
    requires i < |layout|
  {
    Attrib(ToU32(first + i), layout[i].count, layout[i].glType, layout[i].normalized, stride, ToU32(SumSizes(layout[..i])))
  }

  /** The three sizes the buffer array's bookkeeping relates: used entries, recorded capacity, allocation length. */
  datatype Sizes = Sizes(count: nat, capacity: nat, allocation: nat)

  /** The array's invariant: the used entries fit, and the recorded capacity is the allocation's length. */
  predicate SizesValid(s: Sizes)
  {
    s.count <= s.capacity == s.allocation
  }

  /** The sizes after _ignisInsertArrayBuffer as written, and its result. */
  function InsertSizesAsWritten(s: Sizes, reallocOk: bool): (Sizes, bool)
  {
    if s.count == s.capacity then
      var grown := s.capacity * GROWTH_FACTOR;
      if !reallocOk then (s.(capacity := grown), false)
      else (Sizes(s.count + 1, grown, grown), true)
    else (s.(count := s.count + 1), true)
  }

  /** The sizes after the corrected insert: the capacity changes only with the allocation. */
  function InsertSizes(s: Sizes, reallocOk: bool): (Sizes, bool)
  {
    if s.count == s.capacity then
      var grown := s.capacity * GROWTH_FACTOR;
      if !reallocOk then (s, false)
      else (Sizes(s.count + 1, grown, grown), true)
    else (s.(count := s.count + 1), true)
  }

  /** IgnisVertexArray */
  class VertexArrayObject {
    var name: U32
    var arrayBuffers: array<Buffer>
    var count: nat
    var capacity: nat
    var elementBuffer: Buffer
    var elementCount: I32
    /** The attribute pointers set up, and the buffers deleted, in order. */
    var attribs: seq<Attrib>
    var deleted: seq<Buffer>
    /** Whether `arrayBuffers` still holds a pointer ignisDeleteVertexArray released: Delete keeps it, and a second Delete would release it again. */
    ghost var freed: bool

    ghost predicate Valid()
      reads this
    {
      SizesValid(CurrentSizes())
    }

    function CurrentSizes(): Sizes
      reads this
    {
      Sizes(count, capacity, arrayBuffers.Length)
    }

    /** The array buffers added so far. */
    function Buffers(): seq<Buffer>
      reads this, arrayBuffers
      requires count <= arrayBuffers.Length
    {
      arrayBuffers[..count]
    }

    /** The storage an IgnisVertexArray variable starts with (static storage is zeroed). */
    constructor ()
      ensures Valid() && count == 0 && capacity == 0 && attribs == [] && deleted == [] && !freed
    {
      name := 0;
      arrayBuffers := new Buffer[0];
      count, capacity := 0, 0;
      elementBuffer := Buffer(0, 0);
      elementCount := 0;
      attribs, deleted := [], [];
      freed := false;
    }

    /**
     * ignisGenerateVertexArray: records the generated name and stores the
     * result of the allocation. When it fails, the array pointer is NULL
     * (an empty block here) while count and capacity keep their old values,
     * so the invariant survives only for an array that was already empty
     * with capacity 0. Otherwise the array is empty with capacity 4 and the
     * element buffer is cleared.
     */
    method Generate(glName: U32, allocOk: bool) returns (ok: bool)
      modifies this
      ensures name == glName && ok == allocOk && !freed
      ensures ok ==> (Valid() && count == 0 && capacity == INITIAL_SIZE && fresh(arrayBuffers) &&
        elementBuffer == Buffer(0, 0) && elementCount == 0)
      ensures !ok ==> (count == old(count) && capacity == old(capacity) && arrayBuffers.Length == 0 &&
        elementBuffer == old(elementBuffer) && elementCount == old(elementCount))
      ensures !ok ==> (Valid() <==> old(count) == 0 && old(capacity) == 0)
      ensures attribs == old(attribs) && deleted == old(deleted)
    {
      name := glName;
      freed := false;
      if !allocOk {
        arrayBuffers := new Buffer[0];
        return false;
      }
      arrayBuffers := new Buffer[INITIAL_SIZE](_ => Buffer(0, 0));
      capacity := INITIAL_SIZE;
      count := 0;
      elementBuffer := Buffer(0, 0);
      elementCount := 0;
      return true;
    }

    /**
     * ignisDeleteVertexArray: deletes every array buffer in order, frees the
     * array (count and capacity become 0), and deletes the element buffer if
     * one was generated; ignisDeleteBuffer then zeroes its name and target.
     * The array pointer is not reset, so an array this call released stays
     * `freed` until the next Generate: a second call before it would free
     * that array twice. Deleting the NULL of a zeroed record or of a failed
     * Generate (an empty block here) releases nothing.
     */
    method Delete()
      requires Valid() && !freed
      modifies this
      ensures Valid() && count == 0 && capacity == 0 && freed == (old(arrayBuffers.Length) > 0)
      ensures deleted == old(deleted) + old(Buffers()) +
        (if old(elementBuffer).target == GL_ELEMENT_ARRAY_BUFFER then [old(elementBuffer)] else [])
      ensures elementBuffer ==
        (if old(elementBuffer).target == GL_ELEMENT_ARRAY_BUFFER then Buffer(0, 0) else old(elementBuffer))
      ensures attribs == old(attribs) && elementCount == old(elementCount)
    {
      for i := 0 to count
        invariant Valid() && count == old(count) && arrayBuffers == old(arrayBuffers)
        invariant elementBuffer == old(elementBuffer) && elementCount == old(elementCount) && attribs == old(attribs)
        invariant deleted == old(deleted) + arrayBuffers[..i]
      {
        deleted := deleted + [arrayBuffers[i]];
        assert arrayBuffers[..i + 1] == arrayBuffers[..i] + [arrayBuffers[i]];
      }
      freed := arrayBuffers.Length > 0;
      arrayBuffers := new Buffer[0];
      count, capacity := 0, 0;
      if elementBuffer.target == GL_ELEMENT_ARRAY_BUFFER {
        deleted := deleted + [elementBuffer];
        elementBuffer := Buffer(0, 0);
      }
    }

    /** The reallocation: a new block of `size` entries holding the used ones. */
    method Grow(size: nat)
      requires count <= arrayBuffers.Length && count <= size
      modifies this`arrayBuffers
      ensures fresh(arrayBuffers) && arrayBuffers.Length == size
      ensures Buffers() == old(Buffers())
    {
      var temp := new Buffer[size](_ => Buffer(0, 0));
      forall i | 0 <= i < count {
        temp[i] := arrayBuffers[i];
      }
      arrayBuffers := temp;
    }

    /**
     * _ignisInsertArrayBuffer as written: on a full array the capacity is
     * doubled first; a failed reallocation then returns failure with the
     * doubled capacity kept and the old allocation in place, so the
     * invariant no longer holds. Needs a capacity above 0: doubling 0 gives
     * no room for the write.
     */
    method InsertArrayBufferAsWritten(buffer: Buffer, reallocOk: bool) returns (ok: bool)
      requires Valid() && capacity > 0
      modifies this`count, this`capacity, this`arrayBuffers, arrayBuffers
      ensures (CurrentSizes(), ok) == InsertSizesAsWritten(old(CurrentSizes()), reallocOk)
      ensures count <= arrayBuffers.Length
      ensures ok ==> Buffers() == old(Buffers()) + [buffer]
      ensures !ok ==> Buffers() == old(Buffers())
    {
      if count == capacity {
        capacity := capacity * GROWTH_FACTOR;
        if !reallocOk {
          return false;
        }
        Grow(capacity);
      }
      arrayBuffers[count] := buffer;
      count := count + 1;
      return true;
    }

    /** _ignisInsertArrayBuffer as intended: the capacity is doubled only with the allocation. */
    method InsertArrayBuffer(buffer: Buffer, reallocOk: bool) returns (ok: bool)
      requires Valid() && capacity > 0
      modifies this`count, this`capacity, this`arrayBuffers, arrayBuffers
      ensures Valid() && capacity > 0
      ensures (CurrentSizes(), ok) == InsertSizes(old(CurrentSizes()), reallocOk)
      ensures ok ==> Buffers() == old(Buffers()) + [buffer]
      ensures !ok ==> Buffers() == old(Buffers())
    {
      if count == capacity {
        if !reallocOk {
          return false;
        }
        Grow(capacity * GROWTH_FACTOR);
        capacity := capacity * GROWTH_FACTOR;
      }
      arrayBuffers[count] := buffer;
      count := count + 1;
      return true;
    }

    /**
     * ignisAddArrayBufferLayout: generates an array buffer (glName 0 is a
     * failure), inserts it, then computes the stride as the sum of the
     * element sizes and sets up one attribute pointer per element, at
     * consecutive indices from `first` and at the running byte offset.
     * The sums are unsigned int and wrap.
     */
    method AddArrayBufferLayout(glName: U32, reallocOk: bool, first: U32, layout: seq<BufferElement>) returns (ok: bool)
      requires Valid() && capacity > 0
      modifies this`count, this`capacity, this`arrayBuffers, arrayBuffers, this`attribs
      ensures Valid() && capacity > 0
      ensures ok <==> glName != 0 && InsertSizes(old(CurrentSizes()), reallocOk).1
      ensures ok ==> Buffers() == old(Buffers()) + [Buffer(glName, GL_ARRAY_BUFFER)]
      ensures !ok ==> Buffers() == old(Buffers())
      ensures attribs == old(attribs) + (if ok then Attribs(layout, first, ToU32(SumSizes(layout))) else [])
    {
      if glName == 0 {
        return false;
      }
      var inserted := InsertArrayBuffer(Buffer(glName, GL_ARRAY_BUFFER), reallocOk);
      if !inserted {
        return false;
      }

      var stride := Stride(layout);
      SetAttribPointers(first, layout, stride);
      return true;
    }

    /** The second loop of ignisAddArrayBufferLayout: one attribute pointer per element, at the running offset. */
    method SetAttribPointers(first: U32, layout: seq<BufferElement>, stride: U32)
      modifies this`attribs
      ensures attribs == old(attribs) + Attribs(layout, first, stride)
    {
      var offset: U32 := 0;
      var index := first;
      for i := 0 to |layout|
        invariant offset == ToU32(SumSizes(layout[..i])) && index == ToU32(first + i)
        invariant attribs == old(attribs) + Attribs(layout[..i], first, stride)
      {
        assert layout[..i + 1][..i] == layout[..i];
        assert AttribAt(layout[..i + 1], first, stride, i) == AttribAt(layout, first, stride, i);
        attribs := attribs + [Attrib(index, layout[i].count, layout[i].glType, layout[i].normalized, stride, offset)];
        WrapAdd(SumSizes(layout[..i]), ElementSize(layout[i]));
        offset := ToU32(offset + TypeSize(layout[i].glType) * layout[i].count);
        WrapAdd(first + i, 1);
        index := ToU32(index as int + 1);
      }
      assert layout[..|layout|] == layout;
    }

    /**
     * ignisLoadElementBuffer: the element buffer takes the generated name
     * (glName 0 is a failure); only on success is the index count stored.
     */
    method LoadElementBuffer(glName: U32, indexCount: I32) returns (ok: bool)
      modifies this`elementBuffer, this`elementCount
      ensures elementBuffer == Buffer(glName, GL_ELEMENT_ARRAY_BUFFER)
      ensures ok <==> glName != 0
      ensures elementCount == (if ok then indexCount else old(elementCount))
    {
      elementBuffer := Buffer(glName, GL_ELEMENT_ARRAY_BUFFER);
      if glName == 0 {
        return false;
      }
      elementCount := indexCount;
      return true;
    }
  }

  /** The first loop of ignisAddArrayBufferLayout: the stride, the element sizes summed as unsigned int. */
  method Stride(layout: seq<BufferElement>) returns (stride: U32)
    ensures stride == ToU32(SumSizes(layout))
  {
    stride := 0;
    for i := 0 to |layout|
      invariant stride == ToU32(SumSizes(layout[..i]))
    {
      assert layout[..i + 1][..i] == layout[..i];
      WrapAdd(SumSizes(layout[..i]), ElementSize(layout[i]));
      stride := ToU32(stride + TypeSize(layout[i].glType) * layout[i].count);
    }
    assert layout[..|layout|] == layout;
  }

  /** Adding the two parts of a sum modulo 2^32. */
  lemma WrapAdd(a: int, c: int)
    ensures ToU32(ToU32(a) + c) == ToU32(a + c)
  {
  }

  // ---------------------------------------------------------------------------
  // Properties

  /**
   * A failed growth, as written, leaves the recorded capacity at twice the
   * allocation: from a full array of 4 the capacity reads 8 over 4 entries,
   * and the next insert, finding 4 < 8, writes entry 4 of a 4-entry block.
   */
  lemma FailedGrowthBreaksCapacity()
    ensures var (s, ok) := InsertSizesAsWritten(Sizes(4, 4, 4), false);
      !ok && s == Sizes(4, 8, 4) && !SizesValid(s) &&
      s.count < s.capacity && s.count >= s.allocation
  {
  }

  /** In general: a failed growth as written breaks the invariant of every full, non-empty array. */
  lemma FailedGrowthAlwaysBreaks(s: Sizes)
    requires SizesValid(s) && s.count == s.capacity > 0
    ensures !InsertSizesAsWritten(s, false).1 && !SizesValid(InsertSizesAsWritten(s, false).0)
  {
  }

  /**
   * The corrected insert keeps the invariant whether or not the allocation
   * succeeds; it adds exactly one entry on success and changes nothing on
   * failure; it fails only on a full array whose growth fails; and the
   * capacity stays 4 times a power of two.
   */
  lemma InsertKeepsInvariant(s: Sizes, reallocOk: bool)
    requires SizesValid(s) && s.capacity > 0
    ensures SizesValid(InsertSizes(s, reallocOk).0) && InsertSizes(s, reallocOk).0.capacity > 0
    ensures InsertSizes(s, reallocOk).1 ==> InsertSizes(s, reallocOk).0.count == s.count + 1
    ensures !InsertSizes(s, reallocOk).1 <==> (s.count == s.capacity && !reallocOk)
    ensures !InsertSizes(s, reallocOk).1 ==> InsertSizes(s, reallocOk).0 == s
    ensures InsertSizes(s, reallocOk).0.capacity in {s.capacity, 2 * s.capacity}
  {
  }

  /** The two inserts agree except on a failed growth. */
  lemma InsertsAgreeOnSuccess(s: Sizes, reallocOk: bool)
    ensures reallocOk || s.count != s.capacity ==> InsertSizes(s, reallocOk) == InsertSizesAsWritten(s, reallocOk)
  {
  }

  /**
   * The batch renderer's layout (3 + 2 + 1 floats: position, texture
   * coordinates, texture index) has a 24-byte stride with attributes at
   * byte offsets 0, 12 and 20 and at indices first, first + 1, first + 2.
   */
  lemma BatchLayout(first: U32)
    requires first + 3 <= TWO32
    ensures var layout := [BufferElement(GL_FLOAT, 3, false), BufferElement(GL_FLOAT, 2, false), BufferElement(GL_FLOAT, 1, false)];
      var a := Attribs(layout, first, ToU32(SumSizes(layout)));
      && ToU32(SumSizes(layout)) == 24
      && a[0].offset == 0 && a[1].offset == 12 && a[2].offset == 20
      && a[0].index == first && a[1].index == first + 1 && a[2].index == first + 2
  {
    var layout := [BufferElement(GL_FLOAT, 3, false), BufferElement(GL_FLOAT, 2, false), BufferElement(GL_FLOAT, 1, false)];
    assert layout[..1][..0] == [];
    assert SumSizes(layout[..1]) == 12;
    assert layout[..2][..1] == layout[..1];
    assert SumSizes(layout[..2]) == 20;
    assert layout[..3] == layout && layout[..2] == layout[..|layout| - 1];
    assert SumSizes(layout) == 24;
    var a := Attribs(layout, first, 24);
    assert layout[..2][..1] == layout[..1];
    assert Attribs(layout[..1], first, 24) == [AttribAt(layout[..1], first, 24, 0)];
    assert a == Attribs(layout[..2], first, 24) + [AttribAt(layout, first, 24, 2)];
    assert Attribs(layout[..2], first, 24) == Attribs(layout[..1], first, 24) + [AttribAt(layout[..2], first, 24, 1)];
  }

  /**
   * Offsets accumulate: each attribute starts where the one before it ends,
   * and the stride is the end of the last one (before wrap-around, exactly
   * the sum of the sizes).
   */
  lemma {:induction false} OffsetsAccumulate(layout: seq<BufferElement>, i: nat)
    requires i < |layout|
    ensures SumSizes(layout[..i + 1]) == SumSizes(layout[..i]) + ElementSize(layout[i])
    ensures SumSizes(layout) == SumSizes(layout[..|layout| - 1]) + ElementSize(layout[|layout| - 1])
  {
    assert layout[..i + 1][..i] == layout[..i];
  }

  /** Elements of a type without a size (anything but float, int and unsigned int) take no bytes. */
  lemma {:induction false} UnsizedTypesTakeNoBytes(layout: seq<BufferElement>)
    requires forall i :: 0 <= i < |layout| ==> TypeSize(layout[i].glType) == 0
    ensures SumSizes(layout) == 0
  {
    if |layout| > 0 {
      UnsizedTypesTakeNoBytes(layout[..|layout| - 1]);
    }
  }
}
