/**
 * The CPU side of the 2D batch renderer (Minimal/src/Graphics/BatchRenderer2D.c):
 * textured quads are appended to a fixed vertex buffer, each quad's texture
 * is given one of eight texture slots (a texture already bound in this batch
 * reuses its slot), and the batch is drawn and emptied when it is full or
 * out of slots. Floats are modelled as reals; the GL side of a flush (buffer
 * upload, texture binding, glDrawElements) is one recorded Draw.
 */
module BatchRenderer {
  import opened Common

  const MAX_QUADS: nat := 32
  const VERTEX_SIZE: nat := 3 + 2 + 1
  const VERTICES_PER_QUAD: nat := 4
  const INDICES_PER_QUAD: nat := 6
  const BUFFER_SIZE: nat := MAX_QUADS * VERTICES_PER_QUAD * VERTEX_SIZE
  const TEXTURES: nat := 8

  /** The floats one quad adds: four vertices of position (x, y, 0), texture coordinates and texture index. */
  const QUAD_VALUES: nat := VERTICES_PER_QUAD * VERTEX_SIZE

  /** What one flush hands to OpenGL: the vertex data, the textures bound to slots 0.., and the index count drawn. */
  datatype Draw = Draw(vertexData: seq<real>, textures: seq<U32>, indexCount: nat)

  /** The 24 values of a quad, corners bottom-left, bottom-right, top-right, top-left. */
  function QuadValues(x: real, y: real, w: real, h: real, srcX: real, srcY: real, srcW: real, srcH: real, t: real): (r: seq<real>)
    ensures |r| == QUAD_VALUES
    ensures forall c :: 0 <= c < VERTICES_PER_QUAD ==> r[c * VERTEX_SIZE + 2] == 0.0 && r[c * VERTEX_SIZE + 5] == t
  {
    VertexValues(x, y, srcX, srcY, t) +
    VertexValues(x + w, y, srcX + srcW, srcY, t) +
    VertexValues(x + w, y + h, srcX + srcW, srcY + srcH, t) +
    VertexValues(x, y + h, srcX, srcY + srcH, t)
  }

  /** One vertex: position (x, y, 0), texture coordinates (u, v), texture index t. */
  function VertexValues(x: real, y: real, u: real, v: real, t: real): seq<real>
  {
    [x, y, 0.0, u, v, t]
  }

  /** No texture name appears in two slots. */
  predicate Distinct(slots: seq<U32>)
  {
    forall i, j :: 0 <= i < j < |slots| ==> slots[i] != slots[j]
  }

  /** The bound slots after a quad with texture `name`: unchanged if it is already bound, else with it appended. */
  function SlotsWith(slots: seq<U32>, name: U32): seq<U32>
  {
    if name in slots then slots else slots + [name]
  }

  /** The slot the lookup loop finds for `name`: the first slot holding it, or -1. */
  function FindSlot(slots: seq<U32>, name: U32): (r: int)
    ensures -1 <= r < |slots|
    ensures r == -1 <==> name !in slots
    ensures r >= 0 ==> slots[r] == name && name !in slots[..r]
  {
    if |slots| == 0 then -1
    else if slots[0] == name then 0
    else
      var r := FindSlot(slots[1..], name);
      assert slots[1..][..if r < 0 then 0 else r] == slots[1..if r < 0 then 1 else r + 1];
      if r < 0 then -1 else r + 1
  }

  class Renderer2D {
    var vertices: array<real>
    var vertexIndex: nat
    var quadCount: nat
    var textureSlots: array<U32>
    var slotIndex: nat
    /** The draws issued so far. */
    var draws: seq<Draw>

    ghost predicate Valid()
      reads this, textureSlots
    {
      vertices.Length == BUFFER_SIZE && textureSlots.Length == TEXTURES &&
      vertexIndex == QUAD_VALUES * quadCount && quadCount <= MAX_QUADS &&
      slotIndex <= quadCount && slotIndex <= TEXTURES &&
      Distinct(textureSlots[..slotIndex])
    }

    /** The vertex data of the current batch. */
    function Pending(): seq<real>
      reads this, vertices
      requires vertexIndex <= vertices.Length
    {
      vertices[..vertexIndex]
    }

    /** The textures bound in the current batch. */
    function Bound(): seq<U32>
      reads this, textureSlots
      requires slotIndex <= textureSlots.Length
    {
      textureSlots[..slotIndex]
    }

    /** BatchRenderer2DInit: empty counters and eight zeroed slots. */
    constructor Init()
      ensures Valid() && fresh(vertices) && fresh(textureSlots)
      ensures vertexIndex == 0 && quadCount == 0 && slotIndex == 0 && draws == []
      ensures textureSlots[..] == seq(TEXTURES, _ => 0)
    {
      vertices := new real[BUFFER_SIZE](_ => 0.0);
      vertexIndex := 0;
      quadCount := 0;
      textureSlots := new U32[TEXTURES](_ => 0);
      slotIndex := 0;
      draws := [];
    }

    /**
     * BatchRenderer2DFlush: nothing when the batch is empty; otherwise the
     * pending vertices are drawn as 6 indices per quad with the bound
     * textures, and the counters and slots are cleared.
     */
    method Flush()
      requires Valid()
      modifies this`draws, this`vertexIndex, this`quadCount, this`slotIndex, textureSlots
      ensures Valid()
      ensures old(vertexIndex) == 0 ==>
        draws == old(draws) && vertexIndex == 0 && quadCount == 0 && slotIndex == 0 && textureSlots[..] == old(textureSlots[..])
      ensures old(vertexIndex) != 0 ==>
        draws == old(draws) + [Draw(old(Pending()), old(Bound()), INDICES_PER_QUAD * old(quadCount))] &&
        vertexIndex == 0 && quadCount == 0 && slotIndex == 0 && textureSlots[..] == seq(TEXTURES, _ => 0)
    {
      if vertexIndex == 0 {
        return;
      }
      draws := draws + [Draw(vertices[..vertexIndex], textureSlots[..slotIndex], INDICES_PER_QUAD * quadCount)];
      vertexIndex := 0;
      quadCount := 0;
      forall i | 0 <= i < textureSlots.Length {
        textureSlots[i] := 0;
      }
      slotIndex := 0;
    }

    /** _BatchRenderer2DPushValue: appends one value, or drops it when the buffer is full. */
    method PushValue(value: real)
      requires vertices.Length == BUFFER_SIZE && vertexIndex <= BUFFER_SIZE
      modifies this`vertexIndex, vertices
      ensures vertexIndex <= BUFFER_SIZE
      ensures old(vertexIndex) < BUFFER_SIZE ==>
        vertexIndex == old(vertexIndex) + 1 && vertices[..vertexIndex] == old(vertices[..vertexIndex]) + [value]
      ensures old(vertexIndex) >= BUFFER_SIZE ==> vertexIndex == old(vertexIndex) && unchanged(vertices)
    {
      if vertexIndex >= BUFFER_SIZE {
        return;
      }
      vertices[vertexIndex] := value;
      vertexIndex := vertexIndex + 1;
    }

    /** The six pushes of one vertex: position (x, y, 0), texture coordinates, texture index. */
    method PushVertex(x: real, y: real, u: real, v: real, t: real)
      requires vertices.Length == BUFFER_SIZE && vertexIndex + VERTEX_SIZE <= BUFFER_SIZE
      modifies this`vertexIndex, vertices
      ensures vertexIndex == old(vertexIndex) + VERTEX_SIZE
      ensures Pending() == old(Pending()) + VertexValues(x, y, u, v, t)
    {
      PushValue(x);
      PushValue(y);
      PushValue(0.0);
      PushValue(u);
      PushValue(v);
      PushValue(t);
    }

    /** The 24 pushes of a quad: its four corners, each with the texture index t. */
    method PushQuad(x: real, y: real, w: real, h: real, srcX: real, srcY: real, srcW: real, srcH: real, t: real)
      requires vertices.Length == BUFFER_SIZE && vertexIndex + QUAD_VALUES <= BUFFER_SIZE
      modifies this`vertexIndex, vertices
      ensures vertexIndex == old(vertexIndex) + QUAD_VALUES
      ensures Pending() == old(Pending()) + QuadValues(x, y, w, h, srcX, srcY, srcW, srcH, t)
    {
      /* bottom left, bottom right, top right, top left */
      PushVertex(x, y, srcX, srcY, t);
      PushVertex(x + w, y, srcX + srcW, srcY, t);
      PushVertex(x + w, y + h, srcX + srcW, srcY + srcH, t);
      PushVertex(x, y + h, srcX, srcY + srcH, t);
    }

    /**
     * The texture lookup of BatchRenderer2DRenderTextureSrc: the first bound
     * slot holding `name` is reused; otherwise `name` goes into the next
     * slot. The texture index pushed with the quad is that slot.
     */
    method BindTexture(name: U32) returns (textureIndex: real)
      requires Valid() && slotIndex < TEXTURES
      modifies textureSlots, this`slotIndex
      ensures slotIndex <= TEXTURES
      ensures textureSlots[..slotIndex] == SlotsWith(old(Bound()), name)
      ensures textureIndex == (if name in old(Bound()) then FindSlot(old(Bound()), name) else old(slotIndex)) as real
      ensures textureIndex.Floor < slotIndex && textureSlots[textureIndex.Floor] == name
      ensures slotIndex <= old(slotIndex) + 1 && Distinct(textureSlots[..slotIndex])
    {
      textureIndex := -1.0;
      var i := 0;
      while i < slotIndex
        invariant 0 <= i <= slotIndex
        invariant textureIndex == -1.0 && name !in textureSlots[..i]
      {
        if textureSlots[i] == name {
          FindFirst(textureSlots[..slotIndex], name, i);
          textureIndex := i as real;
          break;
        }
        assert textureSlots[..i + 1] == textureSlots[..i] + [textureSlots[i]];
        i := i + 1;
      }
      if textureIndex < 0.0 {
        textureIndex := slotIndex as real;
        textureSlots[slotIndex] := name;
        slotIndex := slotIndex + 1;
        assert textureSlots[..slotIndex] == old(Bound()) + [name];
      }
    }

    /**
     * The part of BatchRenderer2DRenderTextureSrc after the flush check, on a
     * batch with room for the quad: binds the texture and appends the quad's
     * 24 values, with the texture's slot as their texture index.
     */
    method AddQuad(name: U32, x: real, y: real, w: real, h: real, srcX: real, srcY: real, srcW: real, srcH: real)
      requires Valid() && quadCount < MAX_QUADS && slotIndex < TEXTURES
      modifies this`vertexIndex, this`quadCount, this`slotIndex, vertices, textureSlots
      ensures Valid()
      ensures quadCount == old(quadCount) + 1
      ensures Bound() == SlotsWith(old(Bound()), name)
      ensures Pending() == old(Pending()) +
        QuadValues(x, y, w, h, srcX, srcY, srcW, srcH, (if name in old(Bound()) then FindSlot(old(Bound()), name) else old(slotIndex)) as real)
    {
      BatchFits(quadCount);
      var textureIndex := BindTexture(name);
      PushQuad(x, y, w, h, srcX, srcY, srcW, srcH, textureIndex);
      assert QUAD_VALUES * (quadCount + 1) == QUAD_VALUES * quadCount + QUAD_VALUES;
      quadCount := quadCount + 1;
    }

    /**
     * BatchRenderer2DRenderTextureSrc: flushes a batch that holds 32 quads or
     * uses all 8 slots, binds the texture, and appends the quad's 24 values.
     */
    method RenderTextureSrc(name: U32, x: real, y: real, w: real, h: real, srcX: real, srcY: real, srcW: real, srcH: real)
      requires Valid()
      modifies this`draws, this`vertexIndex, this`quadCount, this`slotIndex, vertices, textureSlots
      ensures Valid()
      ensures var full := old(quadCount) >= MAX_QUADS || old(slotIndex) >= TEXTURES;
        var flushed := full && old(vertexIndex) != 0;
        var pending := if full then [] else old(Pending());
        var bound := if full then [] else old(Bound());
        var t := if name in bound then FindSlot(bound, name) else |bound|;
        && draws == old(draws) + (if flushed then [Draw(old(Pending()), old(Bound()), INDICES_PER_QUAD * old(quadCount))] else [])
        && quadCount == (if full then 0 else old(quadCount)) + 1
        && Bound() == SlotsWith(bound, name)
        && Pending() == pending + QuadValues(x, y, w, h, srcX, srcY, srcW, srcH, t as real)
    {
      if quadCount >= MAX_QUADS || slotIndex >= TEXTURES {
        Flush();
        assert Pending() == [] && Bound() == [];
      }
      ghost var pending, bound := Pending(), Bound();
      AddQuad(name, x, y, w, h, srcX, srcY, srcW, srcH);
      assert Pending() == pending + QuadValues(x, y, w, h, srcX, srcY, srcW, srcH,
        (if name in bound then FindSlot(bound, name) else |bound|) as real);
    }

    /** BatchRenderer2DRenderTexture: the whole texture, source rectangle (0, 0, 1, 1). */
    method RenderTexture(name: U32, x: real, y: real, w: real, h: real)
      requires Valid()
      modifies this`draws, this`vertexIndex, this`quadCount, this`slotIndex, vertices, textureSlots
      ensures Valid()
      ensures var full := old(quadCount) >= MAX_QUADS || old(slotIndex) >= TEXTURES;
        var flushed := full && old(vertexIndex) != 0;
        var pending := if full then [] else old(Pending());
        var bound := if full then [] else old(Bound());
        var t := if name in bound then FindSlot(bound, name) else |bound|;
        && draws == old(draws) + (if flushed then [Draw(old(Pending()), old(Bound()), INDICES_PER_QUAD * old(quadCount))] else [])
        && quadCount == (if full then 0 else old(quadCount)) + 1
        && Bound() == SlotsWith(bound, name)
        && Pending() == pending + QuadValues(x, y, w, h, 0.0, 0.0, 1.0, 1.0, t as real)
    {
      RenderTextureSrc(name, x, y, w, h, 0.0, 0.0, 1.0, 1.0);
    }
  }

  /** FindSlot returns the first index holding the name. */
  lemma FindFirst(slots: seq<U32>, name: U32, i: nat)
    requires i < |slots| && slots[i] == name && name !in slots[..i]
    ensures FindSlot(slots, name) == i
  {
  }

  // ---------------------------------------------------------------------------
  // Properties

  /**
   * Binding a texture keeps the slots free of duplicates, never moves a bound
   * texture, adds at most one slot, and binding the same texture again
   * changes nothing.
   */
  lemma {:induction false} SlotsWithKeepsDistinct(slots: seq<U32>, name: U32)
    requires Distinct(slots)
    ensures Distinct(SlotsWith(slots, name))
    ensures name in SlotsWith(slots, name)
    ensures SlotsWith(slots, name)[..|slots|] == slots
    ensures |SlotsWith(slots, name)| == |slots| + (if name in slots then 0 else 1)
    ensures SlotsWith(SlotsWith(slots, name), name) == SlotsWith(slots, name)
  {
    if name !in slots {
      var s := slots + [name];
      forall i, j | 0 <= i < j < |s|
        ensures s[i] != s[j]
      {
        if j == |slots| {
          assert s[i] == slots[i];
        }
      }
    }
  }

  /**
   * In a duplicate-free slot list the slot found for a name is its only
   * position, so every quad of that texture carries the same index.
   */
  lemma FindSlotUnique(slots: seq<U32>, name: U32, i: nat)
    requires Distinct(slots) && i < |slots| && slots[i] == name
    ensures FindSlot(slots, name) == i
  {
  }

  /**
   * A full batch holds exactly the 768 values the buffer has room for, so
   * with the flush rule (a batch holding 32 quads is flushed first) the push
   * guard never drops a value; the quad's texture index sits in every vertex.
   */
  lemma BatchFits(quadCount: nat)
    requires quadCount < MAX_QUADS
    ensures QUAD_VALUES * quadCount + QUAD_VALUES <= BUFFER_SIZE
    ensures QUAD_VALUES * MAX_QUADS == BUFFER_SIZE
  {
  }
}
