/**
 * The bridge object: it keeps the last frame's shapes and the texture deltas
 * not yet applied, the effect to draw with and the map from egui texture ids
 * to renderer handles. run captures a frame; render (through paint) applies
 * the deltas, then draws the tessellated meshes. Every method is proved to do
 * what WrapperSpec describes.
 */
module Wrapper {
  import opened Egui
  import opened Render
  import opened WrapperSpec

  /** Draws a font image of managed texture mid on a fresh square canvas, row by row. */
  method CreateFontTexture(mid: nat, width: nat, height: nat, coverage: seq<byte>) returns (image: TextureImage)
    requires width * height <= |coverage|
    ensures image == FontTexture(mid, width, height, coverage)
  {
    var side := Max(width, height);
    var tex := new Canvas(TextureName(mid), side);
    var y := 0;
    while y < height
      invariant 0 <= y <= height
      invariant tex.Valid() && tex.name == TextureName(mid) && tex.side == side
      invariant forall r :: 0 <= r < side ==> tex.texels[r] == FontRow(coverage, width, height, side, if r < y then r else -1)
    {
      DrawFontRow(tex, coverage, width, height, y);
      y := y + 1;
    }
    assert forall r :: 0 <= r < side ==> tex.texels[r] == FontRow(coverage, width, height, side, r);
    image := tex.Image();
  }

  /** One pass of the drawing loop: the texels of row y of the image, left to right. */
  method DrawFontRow(tex: Canvas, coverage: seq<byte>, width: nat, height: nat, y: nat)
    requires tex.Valid() && width <= tex.side && y < height <= tex.side && width * height <= |coverage|
    requires tex.texels[y] == FontRow(coverage, width, height, tex.side, -1)
    modifies tex
    ensures tex.Valid()
    ensures tex.texels == old(tex.texels)[y := FontRow(coverage, width, height, tex.side, y)]
  {
    ghost var before := tex.texels;
    ghost var row := FontRow(coverage, width, height, tex.side, y);
    var x := 0;
    while x < width
      invariant 0 <= x <= width
      invariant tex.Valid()
      invariant |tex.texels[y]| == tex.side
      invariant tex.texels == before[y := tex.texels[y]]
      invariant forall c :: 0 <= c < tex.side ==> tex.texels[y][c] == if c < x then row[c] else 0
    {
      RowMajorInBounds(x, y, width, height);
      var c := coverage[y * width + x];
      tex.SetTexel(x, y, Grey(c));
      x := x + 1;
    }
    assert tex.texels[y] == row;
  }

  class EguiWrapper {
    /** The shapes of the last frame run, not yet painted. */
    var shapes: seq<ClippedShape>
    /** Texture deltas of every frame run since the last paint, oldest first. */
    var texturesDelta: TexturesDelta
    var effectId: nat
    /** egui texture id -> renderer texture handle. */
    var textureIds: map<TextureId, nat>
    /** The renderer's size as of the last render. */
    var size: Vec2
    var pixelsPerPoint: real

    /** EguiWrapper::default(). */
    constructor ()
      ensures shapes == [] && texturesDelta == NoTextureChanges && effectId == 0 && textureIds == map[]
      ensures size == Vec2(0.0, 0.0) && pixelsPerPoint == 0.0
    {
      shapes := [];
      texturesDelta := NoTextureChanges;
      effectId := 0;
      textureIds := map[];
      size := Vec2(0.0, 0.0);
      pixelsPerPoint := 0.0;
    }

    method Setup()
      modifies this`pixelsPerPoint
      ensures pixelsPerPoint == 1.0
    {
      pixelsPerPoint := 1.0;
    }

    method SetEffectId(effectId: nat)
      modifies this`effectId
      ensures this.effectId == effectId
    {
      this.effectId := effectId;
    }

    /**
     * Captures the output of one egui frame: its shapes replace the pending
     * shapes, its texture deltas are appended to the pending ones.
     */
    method Run(output: FrameOutput)
      modifies this`shapes, this`texturesDelta
      ensures shapes == output.shapes
      ensures texturesDelta == Append(old(texturesDelta), output.texturesDelta)
    {
      shapes := output.shapes;
      texturesDelta := Append(texturesDelta, output.texturesDelta);
    }

    /** Records the renderer's size, then paints. */
    method Render(renderer: Renderer, tessellate: seq<ClippedShape> -> seq<ClippedPrimitive>) returns (outcome: Outcome)
      modifies this`size, this`shapes, this`texturesDelta, this`textureIds, renderer
      ensures size == renderer.size
      ensures shapes == [] && texturesDelta == NoTextureChanges
      ensures var p := PaintSpec(old(shapes), old(texturesDelta.updates), old(textureIds), effectId, tessellate,
                                 old(renderer.nextHandle), old(renderer.nextVertex));
        && renderer.calls == old(renderer.calls) + p.calls
        && textureIds == p.ids
        && outcome == p.outcome
        && renderer.nextHandle == old(renderer.nextHandle) + RegisterCount(p.calls)
        && renderer.nextVertex == old(renderer.nextVertex) + VertexCount(p.calls)
    {
      size := renderer.size;
      outcome := Paint(renderer, tessellate);
    }

    /**
     * Takes the pending shapes and texture deltas (leaving none pending),
     * applies every delta, selects the effect and paints every mesh of the
     * tessellated shapes.
     */
    method Paint(renderer: Renderer, tessellate: seq<ClippedShape> -> seq<ClippedPrimitive>) returns (outcome: Outcome)
      modifies this`shapes, this`texturesDelta, this`textureIds, renderer
      ensures shapes == [] && texturesDelta == NoTextureChanges
      ensures var p := PaintSpec(old(shapes), old(texturesDelta.updates), old(textureIds), effectId, tessellate,
                                 old(renderer.nextHandle), old(renderer.nextVertex));
        && renderer.calls == old(renderer.calls) + p.calls
        && textureIds == p.ids
        && outcome == p.outcome
        && renderer.nextHandle == old(renderer.nextHandle) + RegisterCount(p.calls)
        && renderer.nextVertex == old(renderer.nextVertex) + VertexCount(p.calls)
    {
      PaintSpecCounts(shapes, texturesDelta.updates, textureIds, effectId, tessellate, renderer.nextHandle, renderer.nextVertex);
      var pendingShapes := shapes;
      var updates := texturesDelta.updates;
      shapes := [];
      texturesDelta := NoTextureChanges;
      outcome := ApplyTextures(renderer, updates);
      if outcome.Panicked? {
        return;
      }
      var primitives := tessellate(pendingShapes);
      renderer.UseEffect(effectId);
      VerticesAfterCount(primitives, textureIds, renderer.nextVertex);
      outcome := PaintPrimitiveList(renderer, primitives);
    }

    /** The texture-delta loop of paint. */
    method ApplyTextures(renderer: Renderer, updates: seq<(TextureId, ImageDelta)>) returns (outcome: Outcome)
      modifies this`textureIds, renderer
      ensures var a := ApplyDeltas(updates, old(textureIds), old(renderer.nextHandle));
        && renderer.calls == old(renderer.calls) + a.calls
        && textureIds == a.ids
        && outcome == a.outcome
      ensures renderer.nextHandle == old(renderer.nextHandle) + |ApplyDeltas(updates, old(textureIds), old(renderer.nextHandle)).calls|
      ensures renderer.nextVertex == old(renderer.nextVertex)
    {
      ghost var calls0 := renderer.calls;
      ghost var applied := ApplyDeltas(updates, textureIds, renderer.nextHandle);
      ghost var registered: seq<Call> := [];
      var i := 0;
      while i < |updates|
        invariant 0 <= i <= |updates|
        invariant renderer.calls == calls0 + registered
        invariant renderer.nextVertex == old(renderer.nextVertex)
        invariant renderer.nextHandle == old(renderer.nextHandle) + |registered|
        invariant var rest := ApplyDeltas(updates[i..], textureIds, renderer.nextHandle);
          && applied.calls == registered + rest.calls
          && applied.ids == rest.ids
          && applied.outcome == rest.outcome
      {
        var (id, delta) := updates[i];
        assert updates[i..][0] == updates[i] && updates[i..][1..] == updates[i + 1..];
        if delta.pos.Some? {
          outcome := Panicked(PatchNotImplemented);
          return;
        }
        match delta.image {
          case ColorImage(_, _, _) =>
          case FontImage(width, height, coverage) =>
            if id.User? {
              outcome := Panicked(UserTextureNotImplemented);
              return;
            }
            if |coverage| < width * height {
              outcome := Panicked(CoverageIndexOutOfRange);
              return;
            }
            var image := CreateFontTexture(id.mid, width, height, coverage);
            var handle := renderer.RegisterTexture(image);
            registered := registered + [RegisterTexture(image, handle)];
            textureIds := textureIds[id := handle];
        }
        i := i + 1;
      }
      assert updates[i..] == [];
      outcome := Completed;
    }

    /** The primitive loop of paint: meshes are painted, anything else is skipped. */
    method PaintPrimitiveList(renderer: Renderer, primitives: seq<ClippedPrimitive>) returns (outcome: Outcome)
      modifies renderer
      ensures var d := PaintPrimitives(primitives, textureIds, old(renderer.nextVertex));
        renderer.calls == old(renderer.calls) + d.calls && outcome == d.outcome
      ensures renderer.nextHandle == old(renderer.nextHandle)
      ensures renderer.nextVertex == VerticesAfter(primitives, textureIds, old(renderer.nextVertex))
    {
      ghost var calls1 := renderer.calls;
      ghost var drawn := PaintPrimitives(primitives, textureIds, renderer.nextVertex);
      ghost var end := VerticesAfter(primitives, textureIds, renderer.nextVertex);
      ghost var painted: seq<Call> := [];
      var todo := primitives;
      outcome := Completed;
      while todo != [] && outcome.Completed?
        invariant renderer.calls == calls1 + painted
        invariant renderer.nextHandle == old(renderer.nextHandle)
        invariant outcome.Completed? ==> Resumes(todo, textureIds, renderer.nextVertex, painted, drawn, end)
        invariant outcome.Panicked? ==> painted == drawn.calls && outcome == drawn.outcome && end == renderer.nextVertex
        decreases |todo|
      {
        ghost var added;
        outcome, added := PaintPrimitive(renderer, todo, painted, drawn, end);
        painted := painted + added;
        todo := todo[1..];
      }
    }

    /**
     * One pass of the primitive loop, over the first of the primitives left:
     * a mesh is painted, anything else is skipped. Painting resumes with the
     * rest of the list unless the mesh panicked, which ends the run.
     */
    method PaintPrimitive(renderer: Renderer, todo: seq<ClippedPrimitive>, ghost painted: seq<Call>, ghost drawn: Emitted, ghost end: nat)
      returns (outcome: Outcome, ghost added: seq<Call>)
      requires todo != [] && Resumes(todo, textureIds, renderer.nextVertex, painted, drawn, end)
      modifies renderer
      ensures renderer.calls == old(renderer.calls) + added
      ensures renderer.nextHandle == old(renderer.nextHandle)
      ensures outcome.Completed? ==> Resumes(todo[1..], textureIds, renderer.nextVertex, painted + added, drawn, end)
      ensures outcome.Panicked? ==> painted + added == drawn.calls && outcome == drawn.outcome && end == renderer.nextVertex
    {
      if todo[0].primitive.MeshPrimitive? {
        ghost var base := renderer.nextVertex;
        added := MeshCalls(todo[0].primitive.mesh, textureIds, base).calls;
        outcome := PaintMesh(renderer, todo[0].primitive.mesh);
        ResumesAfterMesh(todo, textureIds, base, painted, drawn, end, renderer.nextVertex);
      } else {
        ResumesAfterCallback(todo, textureIds, renderer.nextVertex, painted, drawn, end);
        added := [];
        outcome := Completed;
        assert painted + added == painted;
      }
    }

    /**
     * Draws one mesh: selects its texture, adds its vertices (recording the
     * index the renderer returns for each), then adds its triangles through
     * that remap table.
     */
    method PaintMesh(renderer: Renderer, mesh: Mesh) returns (outcome: Outcome)
      modifies renderer
      ensures var m := MeshCalls(mesh, textureIds, old(renderer.nextVertex));
        renderer.calls == old(renderer.calls) + m.calls && outcome == m.outcome
      ensures renderer.nextVertex == old(renderer.nextVertex) + if mesh.textureId in textureIds then |mesh.vertices| else 0
      ensures renderer.nextHandle == old(renderer.nextHandle)
    {
      if mesh.textureId !in textureIds {
        outcome := Panicked(UnknownTexture(mesh.textureId));
        return;
      }
      var tid := textureIds[mesh.textureId];
      renderer.UseTextureInChannel(tid, 0);
      ghost var base := renderer.nextVertex;
      var verticeMap := AddMeshVertices(renderer, mesh.vertices);
      outcome := AddTriangles(renderer, mesh.indices, verticeMap, |mesh.vertices|, base);
    }
  }

  /** The vertex loop of paint_mesh: the returned map sends mesh vertex i to the index the renderer gave it. */
  method AddMeshVertices(renderer: Renderer, vertices: seq<Vertex>) returns (verticeMap: map<nat, nat>)
    modifies renderer
    ensures renderer.calls == old(renderer.calls) + VertexCalls(vertices, old(renderer.nextVertex))
    ensures renderer.nextVertex == old(renderer.nextVertex) + |vertices|
    ensures renderer.nextHandle == old(renderer.nextHandle)
    ensures forall k: nat :: k in verticeMap <==> k < |vertices|
    ensures forall k :: k in verticeMap ==> verticeMap[k] == old(renderer.nextVertex) + k
  {
    ghost var base := renderer.nextVertex;
    ghost var calls0 := renderer.calls;
    verticeMap := map[];
    var i := 0;
    while i < |vertices|
      invariant 0 <= i <= |vertices|
      invariant renderer.calls == calls0 + VertexCalls(vertices[..i], base)
      invariant renderer.nextVertex == base + i
      invariant renderer.nextHandle == old(renderer.nextHandle)
      invariant forall k: nat :: k in verticeMap <==> k < i
      invariant forall k :: k in verticeMap ==> verticeMap[k] == base + k
    {
      var v := vertices[i];
      assert vertices[..i + 1][..i] == vertices[..i] && vertices[..i + 1][i] == v;
      assert VertexCalls(vertices[..i + 1], base) == VertexCalls(vertices[..i], base) + EmitVertex(v, base + i);
      renderer.SetTexCoords(v.uv);
      renderer.SetColor(Normalized(v.color));
      var vi := renderer.AddVertex(Flipped(v.pos));
      verticeMap := verticeMap[i := vi];
      i := i + 1;
    }
    assert vertices[..i] == vertices;
  }

  /**
   * The remap of one index chunk through the vertex map, in order: either
   * the first index the map lacks, or every index moved to the renderer's
   * numbering.
   */
  method RemapChunk(chunk: seq<nat>, verticeMap: map<nat, nat>, ghost n: nat, ghost base: nat)
    returns (remapped: seq<nat>, missing: Option<nat>)
    requires forall k: nat :: k in verticeMap <==> k < n
    requires forall k :: k in verticeMap ==> verticeMap[k] == base + k
    ensures missing == FirstOutOfRange(chunk, n)
    ensures missing.None? ==> |remapped| == |chunk| && forall t :: 0 <= t < |chunk| ==> remapped[t] == base + chunk[t]
  {
    remapped := [];
    var k := 0;
    while k < |chunk|
      invariant 0 <= k <= |chunk|
      invariant FirstOutOfRange(chunk, n) == FirstOutOfRange(chunk[k..], n)
      invariant |remapped| == k && forall t :: 0 <= t < k ==> remapped[t] == base + chunk[t]
    {
      if chunk[k] !in verticeMap {
        missing := Some(chunk[k]);
        return;
      }
      remapped := remapped + [verticeMap[chunk[k]]];
      assert chunk[k..][1..] == chunk[k + 1..];
      k := k + 1;
    }
    missing := None;
  }

  /**
   * One pass of the triangle loop of paint_mesh: the chunk's indices are
   * looked up in the vertex map in order (the first one missing panics),
   * then the first three are submitted as a triangle (a shorter chunk
   * panics).
   */
  method AddChunk(renderer: Renderer, chunk: seq<nat>, verticeMap: map<nat, nat>, ghost n: nat, ghost base: nat)
    returns (outcome: Outcome)
    requires forall k: nat :: k in verticeMap <==> k < n
    requires forall k :: k in verticeMap ==> verticeMap[k] == base + k
    modifies renderer
    ensures var c := ChunkCalls(chunk, n, base);
      renderer.calls == old(renderer.calls) + c.calls && outcome == c.outcome
    ensures renderer.nextVertex == old(renderer.nextVertex) && renderer.nextHandle == old(renderer.nextHandle)
  {
    var remapped, missing := RemapChunk(chunk, verticeMap, n, base);
    if missing.Some? {
      outcome := Panicked(VertexIndexOutOfRange(missing.value));
      return;
    }
    if |remapped| < 3 {
      outcome := Panicked(IncompleteTriangle);
      return;
    }
    renderer.AddTriangle(remapped[0], remapped[1], remapped[2]);
    outcome := Completed;
  }

  /** The triangle loop of paint_mesh: index chunks of three, remapped and submitted in order. */
  method AddTriangles(renderer: Renderer, indices: seq<nat>, verticeMap: map<nat, nat>, ghost n: nat, ghost base: nat)
    returns (outcome: Outcome)
    requires forall k: nat :: k in verticeMap <==> k < n
    requires forall k :: k in verticeMap ==> verticeMap[k] == base + k
    modifies renderer
    ensures var t := TriangleCalls(indices, n, base);
      renderer.calls == old(renderer.calls) + t.calls && outcome == t.outcome
    ensures renderer.nextVertex == old(renderer.nextVertex) && renderer.nextHandle == old(renderer.nextHandle)
  {
    ghost var calls0 := renderer.calls;
    ghost var triangles := TriangleCalls(indices, n, base);
    ghost var added: seq<Call> := [];
    var todo := indices;
    while todo != []
      invariant renderer.calls == calls0 + added
      invariant renderer.nextVertex == old(renderer.nextVertex) && renderer.nextHandle == old(renderer.nextHandle)
      invariant var rest := TriangleCalls(todo, n, base);
        triangles.calls == added + rest.calls && triangles.outcome == rest.outcome
      decreases |todo|
    {
      TriangleCallsStep(todo, n, base, added, triangles);
      var chunk := FirstChunk(todo);
      ghost var c := ChunkCalls(chunk, n, base);
      var o := AddChunk(renderer, chunk, verticeMap, n, base);
      added := added + c.calls;
      if o.Panicked? {
        outcome := o;
        return;
      }
      todo := todo[3..];
    }
    outcome := Completed;
  }

  /**
   * A frame that is run and rendered, then rendered a second time without a
   * run in between: the second render finds nothing pending, so it only
   * selects the effect, registers nothing and leaves the texture map as it
   * was. A first render that panics ends the scenario.
   */
  method RenderTwice(wrapper: EguiWrapper, renderer: Renderer, output: FrameOutput,
                     tessellate: seq<ClippedShape> -> seq<ClippedPrimitive>) returns (first: Outcome, second: Outcome)
    requires tessellate([]) == []
    modifies wrapper, renderer
    ensures var p := PaintSpec(output.shapes, Append(old(wrapper.texturesDelta), output.texturesDelta).updates,
                               old(wrapper.textureIds), old(wrapper.effectId), tessellate,
                               old(renderer.nextHandle), old(renderer.nextVertex));
      && first == p.outcome
      && (first.Panicked? ==> second == first && renderer.calls == old(renderer.calls) + p.calls)
      && (first.Completed? ==>
            && second == Completed
            && renderer.calls == old(renderer.calls) + p.calls + [UseEffect(old(wrapper.effectId))]
            && wrapper.textureIds == p.ids
            && renderer.nextHandle == old(renderer.nextHandle) + RegisterCount(p.calls))
  {
    wrapper.Run(output);
    first := wrapper.Render(renderer, tessellate);
    second := first;
    if first.Completed? {
      ghost var calls := renderer.calls;
      PaintNothingPending(wrapper.textureIds, wrapper.effectId, tessellate, renderer.nextHandle, renderer.nextVertex);
      second := wrapper.Render(renderer, tessellate);
      assert renderer.calls == calls + [UseEffect(wrapper.effectId)];
    }
  }
}
