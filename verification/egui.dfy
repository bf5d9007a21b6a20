/**
 * The values the GUI layer (egui) hands to the bridge: texture ids, image
 * deltas, meshes and primitives. Only the parts the bridge reads are kept;
 * floating-point coordinates are modelled as exact reals.
 */
module Egui {

  newtype byte = x: int | 0 <= x < 256

  datatype Option<+T> = None | Some(value: T)

  /** A 2-D point or vector (egui's Pos2 / Vec2), in GUI points. */
  datatype Vec2 = Vec2(x: real, y: real)

  datatype Rect = Rect(min: Vec2, max: Vec2)

  /** egui's Color32: four 8-bit channels. */
  datatype Color32 = Color32(r: byte, g: byte, b: byte, a: byte)

  /** A texture is either egui's own (numbered atlas) or supplied by the user. */
  datatype TextureId = Managed(mid: nat) | User(uid: nat)

  /**
   * Pixel data of a texture delta. egui's font image carries one f32
   * coverage value per texel, which the bridge itself turns into a byte;
   * here that byte is the input, so the conversion is folded into the data.
   * A colour image carries Color32s.
   */
  datatype ImageData =
    | ColorImage(width: nat, height: nat, colors: seq<Color32>)
    | FontImage(width: nat, height: nat, coverage: seq<byte>)

  /** A full image (pos == None) or a patch placed at pos. */
  datatype ImageDelta = ImageDelta(image: ImageData, pos: Option<(nat, nat)>)

  /** egui's TexturesDelta: the textures to set, in order, and those to free. */
  datatype TexturesDelta = TexturesDelta(updates: seq<(TextureId, ImageDelta)>, free: seq<TextureId>)

  const NoTextureChanges: TexturesDelta := TexturesDelta([], [])

  /** TexturesDelta::append: the newer batch's entries go after the pending ones. */
  function Append(pending: TexturesDelta, newer: TexturesDelta): (r: TexturesDelta)
    ensures |r.updates| == |pending.updates| + |newer.updates|
    ensures r.updates[..|pending.updates|] == pending.updates
    ensures r.updates[|pending.updates|..] == newer.updates
    ensures |r.free| == |pending.free| + |newer.free|
    ensures r.free[..|pending.free|] == pending.free
    ensures r.free[|pending.free|..] == newer.free
  {
    TexturesDelta(pending.updates + newer.updates, pending.free + newer.free)
  }

  /** An opaque shape produced by the GUI layer's layout (never inspected by the bridge). */
  datatype ClippedShape = ClippedShape(clipRect: Rect, shape: nat)

  datatype Vertex = Vertex(pos: Vec2, uv: Vec2, color: Color32)

  /** A triangle mesh: indices into vertices, three per triangle, drawn with one texture. */
  datatype Mesh = Mesh(indices: seq<nat>, vertices: seq<Vertex>, textureId: TextureId)

  /** A tessellated primitive: a mesh or an application paint callback. */
  datatype Primitive = MeshPrimitive(mesh: Mesh) | Callback(callback: nat)

  datatype ClippedPrimitive = ClippedPrimitive(clipRect: Rect, primitive: Primitive)

  /** The output of one egui frame that the bridge keeps. */
  datatype FrameOutput = FrameOutput(shapes: seq<ClippedShape>, texturesDelta: TexturesDelta)
}
