/**
 * The parallax background of Minimal/src/Graphics/Background.c: a bounded
 * array of layers allocated once, filled by PushLayer while room is left,
 * moved by Update and released by Free. Creating and deleting a texture
 * are GL calls: the texture a creation produces and whether it succeeded
 * are parameters, and deleted textures are recorded.
 */
module Background {

  /** An IgnisTexture2D, seen through its GL name. */
  datatype Texture = Texture(name: nat)

  /** BackgroundLayer */
  datatype Layer = Layer(texture: Texture, startpos: real, posX: real, posY: real, width: real, height: real, parallax: real)

  /** The layer PushLayer writes: it starts, and sits, at x. */
  function NewLayer(texture: Texture, x: real, y: real, w: real, h: real, parallax: real): (l: Layer)
    ensures l.startpos == l.posX == x && l.posY == y && l.width == w && l.height == h && l.parallax == parallax
  {
    Layer(texture, x, x, y, w, h, parallax)
  }

  /**
   * BackgroundLayerUpdate: the layer is drawn at its start plus the
   * parallax share of x; once the camera's share of x has moved more than a
   * width past the start, the start moves by one width that way.
   */
  function LayerUpdate(l: Layer, x: real): Layer
  {
    var relDist := x * (1.0 - l.parallax);
    var moved := l.(posX := l.startpos + x * l.parallax);
    if relDist > l.startpos + l.width then moved.(startpos := l.startpos + l.width)
    else if relDist < l.startpos - l.width then moved.(startpos := l.startpos - l.width)
    else moved
  }

  /**
   * The result of BackgroundPushLayer and the layer count after it: 0 and
   * no change when full, 0 and no change when the texture fails, otherwise
   * the old count, which then grows by one.
   */
  function PushOutcome(count: nat, max: nat, created: bool): (r: (nat, nat))
    ensures r.1 == count || r.1 == count + 1
    ensures r.1 <= max || r.1 == count
  {
    if count >= max then (0, count)
    else if !created then (0, count)
    else (count, count + 1)
  }

  /** Background: the layer array (a zero-length array stands for NULL), its count and its capacity. */
  class Background {
    var layers: array<Layer>
    var hasStorage: bool
    var layerCount: nat
    var maxLayers: nat
    var deleted: seq<Texture>
    /** Whether `layers` still holds a pointer BackgroundFree released: Free keeps it, and a second Free would release it again. */
    ghost var freed: bool

    /** layer_count never exceeds max_layers, the array holds max_layers when it exists, and no layer is pushed without it. */
    ghost predicate Valid()
      reads this
    {
      layerCount <= maxLayers && (hasStorage ==> layers.Length == maxLayers) &&
      (!hasStorage ==> layers.Length == 0 && layerCount == 0)
    }

    /** The layers pushed so far. */
    function Layers(): seq<Layer>
      reads this, layers
      requires layerCount <= layers.Length
    {
      layers[..layerCount]
    }

    /** A zero-initialised Background. */
    constructor ()
      ensures Valid() && !hasStorage && layerCount == 0 && maxLayers == 0 && deleted == [] && !freed
    {
      layers := new Layer[0];
      hasStorage := false;
      layerCount := 0;
      maxLayers := 0;
      deleted := [];
      freed := false;
    }

    /**
     * BackgroundAlloc: room for maxLayers layers; count and capacity are set
     * even when malloc fails, and the result says whether it succeeded.
     */
    method Alloc(maxLayers: nat, mallocOk: bool) returns (ok: bool)
      modifies this`layers, this`hasStorage, this`layerCount, this`maxLayers, this`freed
      ensures Valid() && ok == mallocOk && hasStorage == mallocOk && !freed
      ensures layerCount == 0 && this.maxLayers == maxLayers && Layers() == []
      ensures fresh(layers)
    {
      if mallocOk {
        layers := new Layer[maxLayers](_ => NewLayer(Texture(0), 0.0, 0.0, 0.0, 0.0, 0.0));
      } else {
        layers := new Layer[0];
      }
      hasStorage := mallocOk;
      freed := false;
      layerCount := 0;
      this.maxLayers := maxLayers;
      ok := hasStorage;
    }

    /**
     * BackgroundFree: every pushed layer's texture is deleted, in order, the
     * array released and both counters set to 0. The pointer is not reset,
     * so an array this call released stays `freed` until the next Alloc: a
     * second call before it would free that array twice. Freeing the NULL
     * of a failed Alloc releases nothing.
     */
    method Free()
      requires Valid() && !freed
      modifies this`layers, this`hasStorage, this`layerCount, this`maxLayers, this`deleted, this`freed
      ensures Valid() && layerCount == 0 && maxLayers == 0 && !hasStorage && freed == old(hasStorage)
      ensures deleted == old(deleted) + Textures(old(Layers()))
    {
      for i := 0 to layerCount
        modifies this`deleted
        invariant deleted == old(deleted) + Textures(layers[..i])
      {
        assert layers[..i + 1] == layers[..i] + [layers[i]];
        deleted := deleted + [layers[i].texture];
      }
      assert layers[..layerCount] == old(Layers());
      freed := hasStorage;
      layers := new Layer[0];
      hasStorage := false;
      layerCount := 0;
      maxLayers := 0;
    }

    /**
     * BackgroundPushLayer: nothing when full. Otherwise slot layer_count is
     * overwritten with the new layer; if its texture was not created the
     * count stays and 0 is returned, else the old count is returned and the
     * count grows by one. Earlier layers never change. Writing a slot needs
     * the array: after a failed Alloc the source writes through NULL.
     */
    method PushLayer(texture: Texture, created: bool, x: real, y: real, w: real, h: real, parallax: real) returns (index: nat)
      requires Valid() && (layerCount < maxLayers ==> hasStorage)
      modifies layers, this`layerCount
      ensures Valid() && (index, layerCount) == PushOutcome(old(layerCount), maxLayers, created)
      ensures Layers() == old(Layers()) + (if layerCount > old(layerCount) then [NewLayer(texture, x, y, w, h, parallax)] else [])
      ensures old(layerCount) < maxLayers ==> layers[old(layerCount)] == NewLayer(texture, x, y, w, h, parallax)
      ensures forall i :: 0 <= i < layers.Length && i != old(layerCount) ==> layers[i] == old(layers[i])
    {
      if layerCount >= maxLayers {
        return 0;
      }
      layers[layerCount] := NewLayer(texture, x, y, w, h, parallax);
      if !created {
        return 0;
      }
      index := layerCount;
      layerCount := layerCount + 1;
    }

    /** BackgroundUpdate: every pushed layer is updated for the camera position x; the rest are untouched. */
    method Update(x: real, deltatime: real)
      requires Valid()
      modifies layers
      ensures Valid()
      ensures forall i :: 0 <= i < layerCount ==> layers[i] == LayerUpdate(old(layers[i]), x)
      ensures forall i :: layerCount <= i < layers.Length ==> layers[i] == old(layers[i])
    {
      for i := 0 to layerCount
        invariant forall k :: 0 <= k < i ==> layers[k] == LayerUpdate(old(layers[k]), x)
        invariant forall k :: i <= k < layers.Length ==> layers[k] == old(layers[k])
      {
        layers[i] := LayerUpdate(layers[i], x);
      }
    }
  }

  /** The textures of a sequence of layers. */
  function Textures(ls: seq<Layer>): (r: seq<Texture>)
    ensures |r| == |ls|
    ensures forall i :: 0 <= i < |ls| ==> r[i] == ls[i].texture
  {
    if |ls| == 0 then [] else Textures(ls[..|ls| - 1]) + [ls[|ls| - 1].texture]
  }

  // ---------------------------------------------------------------------------
  // Properties

  /**
   * The returned index alone cannot tell a failure from the first success:
   * both give 0. Only the count does: a push succeeded exactly when the
   * count grew, and then the index is the new layer's slot.
   */
  lemma ZeroIsAmbiguous(max: nat, count: nat)
    requires 0 < max && count < max
    ensures PushOutcome(0, max, true).0 == 0 && PushOutcome(count, max, false).0 == 0
    ensures PushOutcome(count, max, true) == (count, count + 1)
  {
  }

  /** A push grows the count exactly when there was room and the texture was created. */
  lemma PushGrowsIff(count: nat, max: nat, created: bool)
    ensures PushOutcome(count, max, created).1 == count + 1 <==> count < max && created
    ensures PushOutcome(count, max, created).1 == count + 1 ==> PushOutcome(count, max, created).0 == count
  {
  }

  /**
   * An update draws the layer at its start plus the parallax share of x,
   * moves the start by at most one width, and changes nothing else.
   */
  lemma UpdateMovesStartByAWidth(l: Layer, x: real)
    ensures LayerUpdate(l, x).posX == l.startpos + x * l.parallax
    ensures LayerUpdate(l, x).startpos in {l.startpos, l.startpos + l.width, l.startpos - l.width}
    ensures LayerUpdate(l, x).(startpos := l.startpos, posX := l.posX) == l
  {
  }

  /** With no parallax the layer stays at its start; with full parallax it follows x exactly and its start never moves forward. */
  lemma ParallaxExtremes(l: Layer, x: real)
    requires l.width >= 0.0 && l.startpos >= 0.0
    ensures l.parallax == 0.0 ==> LayerUpdate(l, x).posX == l.startpos
    ensures l.parallax == 1.0 ==> LayerUpdate(l, x).posX == l.startpos + x && LayerUpdate(l, x).startpos <= l.startpos
  {
  }
}
