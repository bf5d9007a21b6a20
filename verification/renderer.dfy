/**
 * The renderer the bridge draws into, seen only through the calls it
 * receives. Its state is the ordered log of those calls and two counters:
 * the texture handle and the vertex index it hands back are the next free
 * ones, counted from bases that need not be zero (the vertex buffer is
 * shared with other geometry).
 */
module Render {
  import opened Egui

  /** A packed 32-bit texel. */
  newtype u32 = x: int | 0 <= x < 0x1_0000_0000

  /** A colour as the renderer receives it: four channels in [0, 1]. */
  datatype Color = Color(r: real, g: real, b: real, a: real)

  /** A registered texture: its name and a square of packed 32-bit texels, indexed [y][x]. */
  datatype TextureImage = TextureImage(name: string, side: nat, texels: seq<seq<u32>>)

  /** One call into the renderer, with the handle or index it returned where it returns one. */
  datatype Call =
    | RegisterTexture(image: TextureImage, handle: nat)
    | UseEffect(effect: nat)
    | UseTextureInChannel(texture: nat, channel: nat)
    | SetTexCoords(uv: Vec2)
    | SetColor(color: Color)
    | AddVertex(pos: Vec2, index: nat)
    | AddTriangle(i0: nat, i1: nat, i2: nat)

  /** The number of textures registered in a call log. */
  function RegisterCount(calls: seq<Call>): (n: nat)
    ensures n <= |calls|
  {
    if calls == [] then 0
    else RegisterCount(calls[..|calls| - 1]) + (if calls[|calls| - 1].RegisterTexture? then 1 else 0)
  }

  /** The number of vertices added in a call log. */
  function VertexCount(calls: seq<Call>): (n: nat)
    ensures n <= |calls|
  {
    if calls == [] then 0
    else VertexCount(calls[..|calls| - 1]) + (if calls[|calls| - 1].AddVertex? then 1 else 0)
  }

  /** Counting distributes over the concatenation of two logs. */
  lemma {:induction false} CountsAppend(a: seq<Call>, b: seq<Call>)
    ensures RegisterCount(a + b) == RegisterCount(a) + RegisterCount(b)
    ensures VertexCount(a + b) == VertexCount(a) + VertexCount(b)
    decreases |b|
  {
    if b == [] {
      assert a + b == a;
    } else {
      var b' := b[..|b| - 1];
      assert (a + b)[..|a + b| - 1] == a + b';
      CountsAppend(a, b');
    }
  }

  /** A log of registrations only counts one texture per call and no vertex. */
  lemma {:induction false} RegistrationsCount(calls: seq<Call>)
    requires forall j :: 0 <= j < |calls| ==> calls[j].RegisterTexture?
    ensures RegisterCount(calls) == |calls| && VertexCount(calls) == 0
    decreases |calls|
  {
    if calls != [] {
      var n := |calls| - 1;
      assert forall j :: 0 <= j < n ==> calls[..n][j] == calls[j];
      RegistrationsCount(calls[..n]);
    }
  }

  class Renderer {
    /** The viewport size the renderer reports. */
    const size: Vec2
    /** Every call received so far, oldest first. */
    var calls: seq<Call>
    /** The handle the next registered texture receives. */
    var nextHandle: nat
    /** The index the next added vertex receives (the vertex buffer may already hold others). */
    var nextVertex: nat

    constructor (size: Vec2, firstHandle: nat, firstVertex: nat)
      ensures this.size == size && nextHandle == firstHandle && nextVertex == firstVertex
      ensures calls == []
    {
      this.size := size;
      calls := [];
      nextHandle := firstHandle;
      nextVertex := firstVertex;
    }

    method RegisterTexture(image: TextureImage) returns (handle: nat)
      modifies this
      ensures handle == old(nextHandle)
      ensures calls == old(calls) + [Call.RegisterTexture(image, handle)]
      ensures nextHandle == old(nextHandle) + 1 && nextVertex == old(nextVertex)
    {
      handle := nextHandle;
      calls := calls + [Call.RegisterTexture(image, handle)];
      nextHandle := nextHandle + 1;
    }

    method UseEffect(effect: nat)
      modifies this
      ensures calls == old(calls) + [Call.UseEffect(effect)]
      ensures nextHandle == old(nextHandle) && nextVertex == old(nextVertex)
    {
      calls := calls + [Call.UseEffect(effect)];
    }

    method UseTextureInChannel(texture: nat, channel: nat)
      modifies this
      ensures calls == old(calls) + [Call.UseTextureInChannel(texture, channel)]
      ensures nextHandle == old(nextHandle) && nextVertex == old(nextVertex)
    {
      calls := calls + [Call.UseTextureInChannel(texture, channel)];
    }

    method SetTexCoords(uv: Vec2)
      modifies this
      ensures calls == old(calls) + [Call.SetTexCoords(uv)]
      ensures nextHandle == old(nextHandle) && nextVertex == old(nextVertex)
    {
      calls := calls + [Call.SetTexCoords(uv)];
    }

    method SetColor(color: Color)
      modifies this
      ensures calls == old(calls) + [Call.SetColor(color)]
      ensures nextHandle == old(nextHandle) && nextVertex == old(nextVertex)
    {
      calls := calls + [Call.SetColor(color)];
    }

    /** Adds a vertex with the current texture coordinates and colour; returns its index. */
    method AddVertex(pos: Vec2) returns (index: nat)
      modifies this
      ensures index == old(nextVertex)
      ensures calls == old(calls) + [Call.AddVertex(pos, index)]
      ensures nextHandle == old(nextHandle) && nextVertex == old(nextVertex) + 1
    {
      index := nextVertex;
      calls := calls + [Call.AddVertex(pos, index)];
      nextVertex := nextVertex + 1;
    }

    method AddTriangle(i0: nat, i1: nat, i2: nat)
      modifies this
      ensures calls == old(calls) + [Call.AddTriangle(i0, i1, i2)]
      ensures nextHandle == old(nextHandle) && nextVertex == old(nextVertex)
    {
      calls := calls + [Call.AddTriangle(i0, i1, i2)];
    }
  }

  /** A blank square canvas of the given side: every texel 0. */
  function Blank(side: nat): (t: seq<seq<u32>>)
    ensures |t| == side && forall y :: 0 <= y < side ==> t[y] == seq(side, _ => 0 as u32)
  {
    seq(side, _ => seq(side, _ => 0 as u32))
  }

  /** A texture being drawn texel by texel before it is registered. */
  class Canvas {
    const name: string
    const side: nat
    var texels: seq<seq<u32>>

    ghost predicate Valid()
      reads this
    {
      |texels| == side && forall y :: 0 <= y < side ==> |texels[y]| == side
    }

    constructor (name: string, side: nat)
      ensures Valid() && this.name == name && this.side == side
      ensures texels == Blank(side)
    {
      this.name := name;
      this.side := side;
      texels := Blank(side);
    }

    method SetTexel(x: nat, y: nat, color: u32)
      requires Valid() && x < side && y < side
      modifies this
      ensures Valid()
      ensures texels == old(texels)[y := old(texels)[y][x := color]]
    {
      texels := texels[y := texels[y][x := color]];
    }

    function Image(): TextureImage
      reads this
    {
      TextureImage(name, side, texels)
    }
  }
}
