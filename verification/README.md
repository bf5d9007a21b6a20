# egui bridge for oml-game, modelled in Dafny

This project models two pieces of the egui integration of the oml-game engine.

The first is `EguiWrapper`, the bridge between egui and the engine's renderer:
- `run` captures a frame's shapes and appends its texture deltas to the pending ones.
- `render` records the renderer's size and then paints.
- Paint takes the pending shapes and deltas, leaving none pending.
- It registers a grey square canvas for every font image and maps the egui texture id to the handle the renderer returns.
- It then selects the effect, tessellates the shapes and draws every mesh primitive. For each vertex it sets texture coordinates and a normalised colour, then adds the vertex with y flipped. Each index triple is remapped through the table of returned vertex indices and becomes a triangle.
- Every `todo!()`, `unwrap()` and out-of-range index of `paint` and `paint_mesh` is a panic. The model makes each one a `Panicked(reason)` outcome and keeps the renderer calls issued before it.

The second is the data logic of the telemetry widget:
- `show` counts the times it is shown. When visible, it runs the trace side panel: every row draws the next automatic colour, a trace id seen for the first time gets an enabled configuration in that colour, and a click flips a configuration's enabled flag.
- It then plots one line per enabled trace. The plot loop's `or_default` would insert an enabled gold configuration, but the panel has already configured every trace.
- A trace's samples come from its f32 series, then its f64 series, then nothing. Present sample `i` is plotted at `x = i + max(frames - maximum_length, 0)`.

Modules:
- `Egui` holds the values egui hands over.
- `Render` is the renderer, observed through the log of calls it receives and its next handle and next vertex index, plus the canvas a texture is drawn on.
- `WrapperSpec` describes the paint step as pure functions and proves what they mean.
- `Wrapper` holds the imperative `EguiWrapper` class, whose loops are proved to issue exactly the calls `WrapperSpec` describes.
- `Telemetry` holds the widget class and the functions and lemmas that specify it.

The model covers what this code does. That is less than a full egui renderer bridge would do:
- A mesh whose texture id is not in the map panics through `unwrap`; it is not skipped.
- A texture patch (`pos` set) panics through `todo!()`; it is not blitted.
- Vertex colours are only normalised; no persistent tint is applied.
- No input events are translated; `update` does nothing.
- No layer is selected.

## Model

| member | source | states |
|---|---|---|
| Egui.Append | src/egui_wrapper.rs:70 | The pending texture deltas are kept as a prefix and the new frame's deltas follow them, for both the set and the free lists. |
| Render.Renderer.RegisterTexture | src/egui_wrapper.rs:154 | Registering a texture logs the call and returns the next free handle; later handles count up from it. |
| Render.Renderer.AddVertex | src/egui_wrapper.rs:225 | Adding a vertex logs the call and returns the next free vertex index, which need not start at zero. |
| WrapperSpec.DecimalInjective | src/egui_wrapper.rs:131 | Two numbers whose decimal renderings are equal are equal. |
| WrapperSpec.DecimalDigits | src/egui_wrapper.rs:131 | The decimal rendering `{}` gives of a number is made of digit characters, has no leading zero unless the number is 0, and read back as digits it is the number. |
| WrapperSpec.TextureName | src/egui_wrapper.rs:129-132 | A managed texture's name is "egui-" followed by exactly the decimal rendering of its id. |
| WrapperSpec.TextureNamesDistinct | src/egui_wrapper.rs:129-132 | Two managed ids get the same texture name if and only if they are the same id. |
| WrapperSpec.Grey | src/egui_wrapper.rs:149 | The texel for a coverage byte has that byte as its lowest and as its highest channel. |
| WrapperSpec.GreyChannels | src/egui_wrapper.rs:149 | coverage * 0x01010101 puts the coverage byte in all four channels of the texel, and distinct coverages give distinct texels. |
| WrapperSpec.RowMajorInBounds | src/egui_wrapper.rs:147 | For x < width and y < height, the pixel index y * width + x lies inside a width * height buffer. |
| WrapperSpec.FontTexture | src/egui_wrapper.rs:128-152 | A font texture is registered under TextureName of its id. It is a square of side rows of side texels, and its side is the larger of the image's width and height. |
| WrapperSpec.FontTextureTexels | src/egui_wrapper.rs:128-152 | A font texture is named after its id and is square with side max(width, height). Inside the image, every channel of texel (x, y) is the coverage at (x, y). The padding stays blank. |
| WrapperSpec.ApplyDeltas | src/egui_wrapper.rs:114-160 | The texture loop only registers textures, and their handles count up from the renderer's next handle. |
| WrapperSpec.ApplyDeltasCompletes | src/egui_wrapper.rs:114-160 | The texture loop runs to the end exactly when no delta is a patch and every font image has a managed id and enough coverage values. |
| WrapperSpec.ApplyDeltasRegistrations | src/egui_wrapper.rs:120-157 | Registration j is the texture drawn for the j-th font image of the batch, in batch order, under handle next + j; its id is managed, it is not a patch and it has enough coverage. There are never more registrations than font images, and a batch applied to the end registers exactly one texture per font image. Colour images register nothing. |
| WrapperSpec.ApplyDeltasIds | src/egui_wrapper.rs:154-155 | Afterwards, a managed id maps to the handle of the latest texture registered under its name, so a later font image for the same id wins. Every other id keeps its old entry or stays absent. |
| WrapperSpec.Normalized | src/egui_wrapper.rs:219-224 | Every channel of a vertex colour divided by 255 lies in [0, 1]. |
| WrapperSpec.NormalizedRoundTrip | src/egui_wrapper.rs:219-224 | Multiplying a normalised channel by 255 gives back the byte, so two colours with the same normalised form are the same colour. |
| WrapperSpec.Flipped | src/egui_wrapper.rs:210-215 | A vertex position keeps its x and has its y negated. |
| WrapperSpec.VertexCalls | src/egui_wrapper.rs:202-228 | The vertex loop issues three calls per mesh vertex. |
| WrapperSpec.VertexCallsAt | src/egui_wrapper.rs:202-228 | Vertex i is emitted by calls 3i to 3i+2, in mesh order: its uv, its normalised colour, then its position flipped to (x, -y) under renderer index base + i. |
| WrapperSpec.VertexCallsCount | src/egui_wrapper.rs:225 | add_vertex is called exactly once per mesh vertex, and the vertex loop registers no texture. |
| WrapperSpec.FirstOutOfRange | src/egui_wrapper.rs:231-234 | The remap of a chunk fails exactly when some index has no vertex, and then it names an index of the chunk that is out of range. |
| WrapperSpec.FirstChunk | src/egui_wrapper.rs:230 | chunks(3) takes the first three indices, or all that are left when fewer remain. |
| WrapperSpec.ChunkCalls | src/egui_wrapper.rs:230-238 | One chunk succeeds exactly when it has three indices, all with vertices, and then it submits their remapped triangle with winding kept. Otherwise it panics without a call. |
| WrapperSpec.TriangleCalls | src/egui_wrapper.rs:230-238 | The triangle loop issues at most one call per three indices. |
| WrapperSpec.TriangleCallsOnlyTriangles | src/egui_wrapper.rs:230-238 | The triangle loop issues only add_triangle calls. |
| WrapperSpec.TriangleCallsComplete | src/egui_wrapper.rs:230-238 | The triangle loop finishes exactly when the index count is a multiple of three and every index names a vertex of the mesh. |
| WrapperSpec.TriangleCallsAt | src/egui_wrapper.rs:230-238 | When the loop finishes, triangle t is index triple t shifted to the renderer's numbering, in the order given. |
| WrapperSpec.TriangleCallsLength | src/egui_wrapper.rs:230-238 | A finished triangle loop submits one triangle per three indices. |
| WrapperSpec.TriangleCallsCount | src/egui_wrapper.rs:230-238 | The triangle loop adds no vertex and registers no texture. |
| WrapperSpec.MeshCalls | src/egui_wrapper.rs:187-240 | A mesh whose texture id has no handle panics through `unwrap` before any call. |
| WrapperSpec.MeshCallsShape | src/egui_wrapper.rs:196-238 | A mesh whose texture has a handle first selects that handle in channel 0, then issues three calls per vertex and at most one triangle call per three indices. |
| WrapperSpec.MeshCallsComplete | src/egui_wrapper.rs:187-240 | paint_mesh finishes exactly for a mesh whose texture has a handle and whose indices form whole triangles of its own vertices. |
| WrapperSpec.MeshCallsCount | src/egui_wrapper.rs:196-228 | A mesh adds one renderer vertex per mesh vertex, or none if its texture is unknown, and registers nothing. |
| WrapperSpec.MeshCallsVertex | src/egui_wrapper.rs:199-228 | After the texture selection, calls 3i+1 to 3i+3 emit mesh vertex i, numbered base + i. |
| WrapperSpec.MeshCallsTriangle | src/egui_wrapper.rs:230-238 | In a drawable mesh with n vertices, call 1 + 3n + t adds triangle t, remapped. |
| WrapperSpec.MeshCallsLayout | src/egui_wrapper.rs:196-238 | The calls for a drawable mesh, position by position: the texture selection in channel 0, then each vertex's three calls in order, then one triangle per index triple. |
| WrapperSpec.MeshTrianglesUseReturnedIndices | src/egui_wrapper.rs:225-237 | Each corner of every triangle is the index the renderer returned when the mesh vertex named by that index was added. |
| WrapperSpec.MeshCallsOnlyDraws | src/egui_wrapper.rs:196-238 | Painting a mesh never registers a texture or selects an effect. |
| WrapperSpec.PaintPrimitives | src/egui_wrapper.rs:167-182 | A primitive list without meshes issues no call and finishes. |
| WrapperSpec.VerticesAfterCount | src/egui_wrapper.rs:167-182 | The renderer's next vertex index after the primitive loop is where it started plus one per vertex the loop added, also when a mesh panics. |
| WrapperSpec.PaintPrimitivesSkipsNonMeshes | src/egui_wrapper.rs:167-182 | Painting a primitive list is the same as painting its meshes alone; other primitives have no effect. |
| WrapperSpec.PaintPrimitivesOnlyDraws | src/egui_wrapper.rs:167-182 | The primitive loop never registers a texture or selects an effect. |
| WrapperSpec.PaintSpec | src/egui_wrapper.rs:110-185 | A paint step leaves the texture map the texture loop leaves and begins with that loop's calls. If that loop panics, the step ends there. |
| WrapperSpec.PaintSpecCounts | src/egui_wrapper.rs:110-185 | A paint step registers exactly the textures of the texture loop and nothing later. It adds exactly the vertices of the meshes it draws, and none when the texture loop panics. |
| WrapperSpec.PaintOrdering | src/egui_wrapper.rs:110-185 | The calls of a paint step come in three phases: texture registrations, then the effect selection, then drawing calls. So every delta is applied before anything is drawn, and the effect is selected before any mesh. |
| WrapperSpec.PaintNothingPending | src/egui_wrapper.rs:110-112 | With nothing pending, a paint step only selects the effect and leaves the texture map unchanged. |
| Wrapper.CreateFontTexture | src/egui_wrapper.rs:128-152 | The canvas drawn row by row is exactly the font texture FontTextureTexels describes. |
| Wrapper.DrawFontRow | src/egui_wrapper.rs:145-151 | One pass of the x loop sets row y of the canvas to the grey texels of image row y and leaves every other row as it was. |
| Wrapper.EguiWrapper.constructor | src/egui_wrapper.rs:11-21 | The default bridge has no pending shapes or deltas, effect 0 and an empty texture map. |
| Wrapper.EguiWrapper.Setup | src/egui_wrapper.rs:24-27 | setup sets pixels-per-point to 1. |
| Wrapper.EguiWrapper.SetEffectId | src/egui_wrapper.rs:29-31 | set_effect_id stores the effect. |
| Wrapper.EguiWrapper.Run | src/egui_wrapper.rs:63-70 | The frame's shapes replace the pending ones, and its texture deltas are appended to the pending deltas. |
| Wrapper.EguiWrapper.Render | src/egui_wrapper.rs:81-93 | render records the renderer's size, then does exactly what Paint does, counters included. |
| Wrapper.EguiWrapper.Paint | src/egui_wrapper.rs:110-185 | Afterwards nothing is pending. The renderer receives exactly PaintSpec's calls, the texture map becomes PaintSpec's map, and the step ends as PaintSpec says (so PaintOrdering applies to the real calls). The next handle moves on by one per registration and the next vertex index by one per added vertex, so the next frame's handles and indices follow this frame's. |
| Wrapper.EguiWrapper.ApplyTextures | src/egui_wrapper.rs:114-160 | The texture loop issues ApplyDeltas's registrations, leaves the map and outcome ApplyDeltas gives, moves the next handle on by one per registration and adds no vertex. |
| Wrapper.EguiWrapper.PaintPrimitiveList | src/egui_wrapper.rs:167-182 | The primitive loop issues exactly PaintPrimitives's calls and stops at the first mesh that panics. It registers nothing, and leaves the next vertex index where VerticesAfter says. |
| Wrapper.EguiWrapper.PaintPrimitive | src/egui_wrapper.rs:173-181 | One pass of the primitive loop paints a mesh as MeshCalls says, or skips any other primitive with no call. It registers nothing. The run then continues with the rest of the list, unless the mesh panicked, which ends it with the loop's outcome. |
| Wrapper.EguiWrapper.PaintMesh | src/egui_wrapper.rs:187-240 | paint_mesh issues exactly MeshCalls's calls and registers nothing. The renderer numbers one new vertex per mesh vertex, or none when the texture is unknown, also when a triangle panics. |
| Wrapper.AddMeshVertices | src/egui_wrapper.rs:202-228 | The vertex loop issues VertexCalls's calls. Its remap table holds exactly the mesh indices 0..n-1, and each maps to the index the renderer returned. |
| Wrapper.RemapChunk | src/egui_wrapper.rs:231-234 | The remap of a chunk reports the first index missing from the table, or, if none is missing, moves every index to the renderer's numbering. |
| Wrapper.AddChunk | src/egui_wrapper.rs:230-238 | One pass of the triangle loop issues exactly ChunkCalls's calls. |
| Wrapper.AddTriangles | src/egui_wrapper.rs:230-238 | The triangle loop issues exactly TriangleCalls's calls and leaves the vertex numbering alone. |
| Wrapper.RenderTwice | src/egui_wrapper.rs:63-93 | A frame run and rendered, then rendered again with no run in between: the first render does what PaintSpec says for the frame. If it finishes, the second only selects the effect, keeps the texture map and finishes. |
| Telemetry.YsFromTrace | src/egui_telemetry_widget.rs:118-129 | The samples are the f32 series if it is non-empty, otherwise the f64 series. They are empty exactly when both series are. |
| Telemetry.PlotPoints | src/egui_telemetry_widget.rs:141-152 | There are at most as many points as samples, and every x lies in [offset, offset + number of samples). |
| Telemetry.XOffset | src/egui_telemetry_widget.rs:135-138 | The x offset is max(frames - maximum_length, 0). |
| Telemetry.PlotPointsComplete | src/egui_telemetry_widget.rs:141-152 | Every present sample i is plotted, at x = i + offset, with its value as y. |
| Telemetry.PlotPointsSound | src/egui_telemetry_widget.rs:141-152 | Every plotted point is some present sample i, at x = i + offset. |
| Telemetry.PlotPointsCount | src/egui_telemetry_widget.rs:144-150 | There is exactly one point per present sample; missing samples are skipped. |
| Telemetry.PlotPointsIncreasing | src/egui_telemetry_widget.rs:141-152 | The points go strictly left to right. |
| Telemetry.TracePoints | src/egui_telemetry_widget.rs:131-154 | A trace's points go strictly left to right, one per present sample, and none lies left of the x offset. |
| Telemetry.TracePointsAt | src/egui_telemetry_widget.rs:131-154 | A trace's points are exactly its present samples, sample i at x = i + max(frames - maximum_length, 0). |
| Telemetry.PanelConfigs | src/egui_telemetry_widget.rs:51-69 | After the side panel, the configured ids are the old ones plus every listed trace id. |
| Telemetry.PanelKeepsColors | src/egui_telemetry_widget.rs:54-61 | A trace that already had a configuration keeps its colour, whatever is clicked. |
| Telemetry.PanelNewColor | src/egui_telemetry_widget.rs:51-61 | A trace id first seen in this panel gets the automatic colour drawn at its first row. Later rows with the same id, and clicks, do not change it. |
| Telemetry.PanelUnclickedKept | src/egui_telemetry_widget.rs:54-64 | A configured trace none of whose rows was clicked keeps its configuration. |
| Telemetry.PanelUnclickedNew | src/egui_telemetry_widget.rs:51-64 | A new trace none of whose rows was clicked ends up enabled, in the automatic colour of its first row. |
| Telemetry.PanelClickedKept | src/egui_telemetry_widget.rs:54-64 | Each clicked row flips its trace's enabled flag once. A configured trace ends up enabled exactly when it started enabled and an even number of its rows were clicked, or started disabled and an odd number were. |
| Telemetry.PanelClickedNew | src/egui_telemetry_widget.rs:51-64 | A new trace starts enabled, and each clicked row showing it flips that once, so it ends up enabled exactly when an even number of its rows were clicked. |
| Telemetry.OrDefault | src/egui_telemetry_widget.rs:81-82 | The plot loop's or_default gives every trace id a configuration: the old one, or enabled gold. |
| Telemetry.OrDefaultInsertsNothing | src/egui_telemetry_widget.rs:81-82 | When every trace id is already configured, as it is after the side panel, or_default changes nothing. |
| Telemetry.TraceLine | src/egui_telemetry_widget.rs:82-88 | A trace contributes exactly one line when its configuration is enabled and none otherwise; that line is its points in its configured colour. |
| Telemetry.DefaultPlotsInGold | src/egui_telemetry_widget.rs:15-21 | TraceConfig::default is enabled and gold, so a trace with no configuration is plotted, in gold. |
| Telemetry.EnabledIndices | src/egui_telemetry_widget.rs:81-83 | The enabled positions are exactly the traces whose configuration, or the default, is enabled, listed in increasing order. |
| Telemetry.PlotLinesCount | src/egui_telemetry_widget.rs:81-89 | The plot holds exactly one line per enabled trace, so no line is duplicated or dropped. |
| Telemetry.PlotLinesAt | src/egui_telemetry_widget.rs:81-89 | Line j is the line of the j-th enabled trace in trace order: its points, in its colour. |
| Telemetry.PlotLines | src/egui_telemetry_widget.rs:81-89 | The plot has at most one line per trace. |
| Telemetry.PlotLinesComplete | src/egui_telemetry_widget.rs:81-89 | Every trace whose configuration is enabled has its line plotted. |
| Telemetry.PlotLinesSound | src/egui_telemetry_widget.rs:81-89 | Every plotted line belongs to a trace whose configuration is enabled. |
| Telemetry.TelemetryWidget.constructor | src/egui_telemetry_widget.rs:24-30 | The default widget has a count of 0, no size, no configurations and automatic colour index 0. |
| Telemetry.TelemetryWidget.NextAutoColor | src/egui_telemetry_widget.rs:156-162 | It returns automatic colour number idx and advances idx by one. |
| Telemetry.TelemetryWidget.Show | src/egui_telemetry_widget.rs:33-93 | count goes up by one on every show. When hidden, nothing else changes and nothing is plotted. When visible, idx advances by one per trace, the configurations become the side panel's, and the lines are those of the enabled traces under them. |
| Telemetry.TelemetryWidget.TracesPanel | src/egui_telemetry_widget.rs:51-69 | The side-panel loop advances idx by one per trace and leaves the configurations PanelConfigs describes. |
| Telemetry.TelemetryWidget.PlotTraces | src/egui_telemetry_widget.rs:79-91 | The plot loop leaves the configurations with or_default applied and plots the lines PlotLines describes. |

## Left out

- Input: `gather_input` is left out, and so is the egui context run and the `pixels_per_point` division it performs. `update` does nothing in the source. `Run` takes the frame output egui would return.
- Wrapper.EguiWrapper.Run: a layout callback that fails panics through `unwrap` inside egui's run. The model receives only completed frames.
- Floating point is left out. Positions, uvs, the colour division by 255 and plot coordinates are exact reals. The bridge's own coverage-to-byte conversion `(coverage * 255.0) as u8` (src/egui_wrapper.rs:148) is folded into the input: a font image carries bytes, not f32 coverage. What that cast does is therefore lost: it truncates toward zero, and it saturates (negative values and NaN become 0, values above 255 become 255). The f64-to-f32 sample cast is not modelled.
- Logging (`tracing::debug!`, `tracing::warn!` for unsupported primitives) is left out.
- The texture matrix (`set_mtx` with a y-scale of 1/8) and `update_canvas` are left out. Texture handles, vertex indices, the effect id and the canvas side are unbounded naturals; the source uses u16 and u32 there, and casts the canvas side with `size as u32` (src/egui_wrapper.rs:137).
- Wrapper.CreateFontTexture: the canvas is assumed to start with every texel 0. A font image with too few coverage values is rejected before any texel is drawn; the source panics at the first missing value. Nothing escapes that canvas before the panic, so the renderer calls and the map are the same.
- Render: the renderer is a collaborator. Its vertex buffer, GPU upload and effects are left out; only the calls it receives and the handle and index it returns are modelled.
- egui's list of textures to free is appended but never read by paint, so the texture map never shrinks. The model keeps it that way.
- Tessellation is a parameter of `Render` and `Paint`: a function from shapes to clipped primitives.
- Clip rectangles are carried but not read, as in the source.
- Telemetry.TelemetryWidget.Show: the layout is left out. This covers the widget's size, `allocate_exact_size`, the panels and the checkbox drawing. Visibility, the clicked rows and the telemetry store are parameters. `count` and `next_auto_color_idx` are unbounded naturals; the usize overflow of the counter and of the colour index is not modelled.
- Telemetry.TelemetryWidget.NextAutoColor: the HSV golden-ratio hue of colour number i is the parameter `autoColor`. The index is an unbounded natural; the `+= 1` on the usize `next_auto_color_idx` would overflow in the source after 2^64 calls (usize on a 64-bit target), one per panel row of every visible show whether or not the trace is new, and that is not modelled.
- Telemetry.Samples: a name the telemetry store does not know yields no samples. The store's own bookkeeping is not part of this model.
