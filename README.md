# Minimal — a verified model of its core

Minimal is a small C library for opening a window, reading keyboard and mouse
input and drawing 2D geometry with OpenGL. It was rewritten several times and
four generations live side by side in its tree; a Python script,
`singleheader.py`, stitches one generation into the distributable
`minimal.h`. This project models, in Dafny, the bookkeeping at the heart of
each generation and proves what it promises:

- **the single-header assembler** (`SingleHeader`): the output buffer built
  step by step equals a pure concatenation of header, banner, implementation
  guard, source bodies and license;
- **the header generation** (`HeaderInput`, `HeaderEvent`): the static input
  state with current and previous key and button arrays, edge queries,
  modifier masks, and the event record accessors with their sentinels;
- **the Win32 generation** (`Win32Window`, `Win32Event`, `Win32Util`,
  `Win32App`, `KeyTable`, `GLVersion`): the window record with per-key
  current/previous/action records, the `MinimalCall*` helpers, mouse capture,
  the `WM_SIZE` flag rule, the 512-entry scan-code table, the frame timer,
  log prefixes, the `"major.minor"` parser and the application settings;
- **the GLFW-flavoured generation** (`AppWindow`, `AppInput`, `AppEvent`):
  the window record with its 1-bit flags, the polled input arrays and the
  event accessors;
- **the oldest generation** (`LegacyWindow`, `LegacyInput`, `LegacyApp`)
  with its press/repeat/release key state machine, and its graphics layer
  (`Renderer`, `VertexArray`, `BatchRenderer`, `Primitives`, `FontRenderer`,
  `Background`): index generation, the growing buffer array, bounded vertex
  batches that flush when full, texture slot de-duplication and the bounded
  background layer array.

State the C code updates in place is a Dafny `class` whose methods state the
whole new state; pure code is functions and lemmas. OpenGL draws and
callback invocations are appended, in order, to a `trace` (or `draws`)
sequence, so the contracts can say what was drawn or called and when. C
integer widths are explicit (`Common.ToU8`, `ToI16`, `ToU32` and friends, and
the 16-bit words of `Words`); floats are reals.

## Model

| member | source | states |
|---|---|---|
| Words.MakeMouseU | src/minimal/window.c:154 | (button << 16) + action in 32-bit unsigned arithmetic: for a button and an action that fit in 16 bits it is exactly button * 65536 + action |
| Words.HalvesRebuild | src/minimal/event.c:5-6 | every 32-bit word is its HIWORD shifted up plus its LOWORD |
| Words.PackUnpack | src/minimal/event.c:5-6 | HIWORD and LOWORD undo the packing of a 16-bit button and a 16-bit action |
| Words.PackDropsHighBits | src/minimal/window.c:154 | a button of 2^16 or more loses its high bits in the 32-bit shift |
| AppEvent.App.DispatchEvent | src/minimal/event.c:16-20 | the record built from the four arguments reaches on_event exactly once when a callback is set, and nothing is delivered otherwise |
| AppEvent.PositionAccessors | src/minimal/event.c:24-64 | the size and motion accessors succeed exactly for their own event type and then give back lParam and rParam as floats |
| AppEvent.OtherTypesGetSentinels | src/minimal/event.c:34-84 | for any other event type the button and key accessors give GLFW_KEY_UNKNOWN and write nothing, and the char accessor gives NUL |
| AppEvent.MouseButtonRoundTrip | src/minimal/event.c:34-54 | a button event packed as (button << 16) + action reads back as that button and position; pressed and released follow the action word |
| AppEvent.KeyRoundTrip | src/minimal/event.c:66-79 | a key event gives its keycode back, and pressed and released give it exactly for GLFW_PRESS and GLFW_RELEASE |
| AppInput.InputState.constructor | src/minimal/input.c:9-10 | the static key and button arrays start with every (state, prev) pair zero |
| AppInput.InputState.UpdateInput | src/minimal/input.c:12-25 | every key from SPACE to LAST and every button moves its state to prev and takes GLFW's answer as its new state; codes below SPACE are untouched |
| AppInput.QueriesAfterPoll | src/minimal/input.c:41-57 | after a poll a code is hit iff GLFW reports it pressed and it was up before, up iff it was down and is no longer pressed, and never both |
| AppInput.SteadyCodeHasNoEdge | src/minimal/input.c:12-57 | a code polled with the same answer twice in a row is neither hit nor up |
| AppInput.EdgeQueriesInRange | src/minimal/input.c:41-87 | Hit, Down and Up give 0 for every code outside the arrays; hit implies down and excludes up |
| AppInput.KeyQueriesReachGlfw | src/minimal/input.c:27-69 | Pressed and Released reject only the unknown key and codes past the last, so -2 reaches GLFW while the edge queries reject it; pressed and released never hold together |
| AppWindow.Window.constructor | src/minimal/window.c:36-62 | a created window has the requested size, all three flags clear, no application, every key and button RELEASE and no callbacks |
| AppWindow.Window.SetApp | src/minimal/window.c:102-105 | the window's application becomes the one given |
| AppWindow.Window.CallChar | src/minimal/window.c:135-139 | the char callback is invoked if set, then a CHAR event carrying the codepoint and the mods is forwarded to the application |
| AppWindow.Window.CallKey | src/minimal/window.c:141-147 | a key inside key_state gets the action's low byte and nothing else changes, so the key getter then reads that byte back as int8_t and reads every other key as before; the key callback is invoked if set and a KEY event is forwarded (range check as intended, see Findings) |
| AppWindow.Window.CallMouseButton | src/minimal/window.c:149-155 | a button inside mouse_buttons gets the action's low byte, which the button getter then reads back, every other button reading as before; the event forwarded carries (button << 16) + action and the position (range check as intended, see Findings) |
| AppWindow.Window.CallCursorPos | src/minimal/window.c:157-161 | the cursor callback is invoked if set and a MOUSE_MOVED event with the position is forwarded |
| AppWindow.Window.CallMouseScroll | src/minimal/window.c:163-167 | the scroll callback is invoked if set and a MOUSE_SCROLLED event with both offsets is forwarded |
| AppWindow.Window.CallWindowSize | src/minimal/window.c:169-176 | the new size is stored first; then the size callback is invoked if set and a WINDOW_SIZE event is forwarded |
| AppWindow.Window.CallWindowMinimize | src/minimal/window.c:178-182 | the callback, if set, receives the new flag while the window still holds the old one; then the one-bit flag keeps the argument's low bit |
| AppWindow.Window.CallWindowMaximize | src/minimal/window.c:184-188 | the callback, if set, receives the new flag while the window still holds the old one; then the one-bit flag keeps the argument's low bit |
| AppWindow.Window.CloseWindow | src/minimal/window.c:110-111 | afterwards minimalShouldCloseWindow answers 1 |
| AppWindow.Window.SetMinimized | src/minimal/window.c:113-115 | a uint8_t stored into the one-bit field reads back as its low bit |
| AppWindow.Window.SetMaximized | src/minimal/window.c:114-116 | a uint8_t stored into the one-bit field reads back as its low bit |
| AppWindow.GetKeyState | src/minimal/window.c:119-122 | -1 without a window or for a key outside key_state, otherwise the stored byte read as int8_t (range check as intended, see Findings) |
| AppWindow.GetMouseButtonState | src/minimal/window.c:124-127 | -1 without a window or for a button outside mouse_buttons, otherwise the stored byte read as int8_t (range check as intended, see Findings) |
| AppWindow.TruncatedKeyPasses | src/minimal/common.c:54-57 | the int16_t check as called on a uint32_t key accepts exactly the keys whose low 16 bits are in range, so 0x10020 passes although it lies past key_state |
| AppWindow.TruncatedButtonPasses | src/minimal/common.c:59-62 | the int8_t check as called on a uint32_t button accepts exactly the buttons whose low byte is in range, so 0x100 passes |
| BatchRenderer.Renderer2D.Init | Minimal/src/Graphics/BatchRenderer2D.c:53-59 | a new batch is empty: no vertices, no quads, no bound slot, every one of the eight texture slots 0, nothing drawn |
| BatchRenderer.Renderer2D.Flush | Minimal/src/Graphics/BatchRenderer2D.c:76-101 | an empty batch draws nothing and changes nothing; otherwise exactly one draw of the pending vertices with the bound textures and 6 indices per quad is issued, and the counters and slots are cleared |
| BatchRenderer.Renderer2D.PushValue | Minimal/src/Graphics/BatchRenderer2D.c:103-112 | below the buffer size the value is appended and the index grows by one; at the buffer size the value is dropped and nothing changes |
| BatchRenderer.Renderer2D.PushVertex | Minimal/src/Graphics/BatchRenderer2D.c:149-156 | one vertex appends position (x, y, 0), texture coordinates and texture index to the pending data |
| BatchRenderer.Renderer2D.PushQuad | Minimal/src/Graphics/BatchRenderer2D.c:148-186 | a quad appends its four corners bottom-left, bottom-right, top-right, top-left, 24 values, to the pending data |
| BatchRenderer.Renderer2D.BindTexture | Minimal/src/Graphics/BatchRenderer2D.c:132-146 | a texture already bound keeps its first slot, a new one takes the next slot; the returned index names a slot holding the texture and the slots stay duplicate-free |
| BatchRenderer.Renderer2D.AddQuad | Minimal/src/Graphics/BatchRenderer2D.c:132-188 | on a batch with room, the quad count grows by one, the texture is bound and the quad's values carry that texture's slot |
| BatchRenderer.Renderer2D.RenderTextureSrc | Minimal/src/Graphics/BatchRenderer2D.c:127-189 | a batch with 32 quads or 8 slots in use is flushed (drawn if non-empty) first; then the quad is added to the (possibly new) batch with its texture's slot as index |
| BatchRenderer.Renderer2D.RenderTexture | Minimal/src/Graphics/BatchRenderer2D.c:114-117 | the whole texture is drawn as RenderTextureSrc with source rectangle (0, 0, 1, 1): a batch of 32 quads or 8 used slots is flushed first (one draw when it holds values), otherwise the pending values and bound slots are kept; the texture is bound in its first slot or the next one, and the quad is appended with that slot |
| BatchRenderer.FindFirst | Minimal/src/Graphics/BatchRenderer2D.c:133-140 | the lookup loop stops at the first slot holding the name |
| BatchRenderer.SlotsWithKeepsDistinct | Minimal/src/Graphics/BatchRenderer2D.c:132-146 | binding keeps the slots duplicate-free, never moves a bound texture, adds at most one slot, and binding the same texture twice is the same as once |
| BatchRenderer.FindSlotUnique | Minimal/src/Graphics/BatchRenderer2D.c:133-140 | in duplicate-free slots the slot found for a texture is its only position, so all its quads carry the same index |
| BatchRenderer.BatchFits | Minimal/src/Graphics/Renderer.h:14-23 | 32 quads of 24 values fill the 768-value buffer exactly, so with the flush-at-32 rule the overflow guard never drops a value |
| Renderer.GenerateIndicesAsWritten | Minimal/src/Graphics/Renderer.c:3-18 | the loop as written fills blocks only while i < max - step: every entry of the first (max-1)/step blocks holds its quad's index 4q + (0,1,2,2,3,0), wrapping modulo 2^32, and every other entry keeps its old value |
| Renderer.GenerateIndices | Minimal/src/Graphics/Renderer.c:3-18 | the intended loop fills all max/step whole blocks with the quad indices and leaves every other entry unchanged |
| Renderer.LastQuadSkipped | Minimal/src/Graphics/Renderer.c:6 | for the batch renderer's 192 entries in blocks of 6, the loop as written fills 31 quads and leaves entries 186..191 unwritten; the intended loop writes all 192 |
| Renderer.AlwaysOneShort | Minimal/src/Graphics/Renderer.c:6 | whenever max is a whole number of blocks, the loop as written fills one block fewer than fit and the intended loop fills all |
| Renderer.IndicesStayInQuad | Minimal/src/Graphics/Renderer.c:8-16 | every written entry names one of its own quad's four vertices, so every value is below 4 times the number of quads written |
| Renderer.TrianglesOfAQuad | Minimal/src/Graphics/Renderer.c:8-14 | a quad's two triangles (0,1,2) and (2,3,0) share the diagonal and together cover all four of its vertices |
| Renderer.WriteBlock | Minimal/src/Graphics/Renderer.c:8-14 | the six writes of one block put the quad's indices into its block and change no other entry |
| VertexArray.TypeSize | Minimal/src/Ignis/Ignis.c:97-106 | the size is 4 exactly for float, int and unsigned int, and 0 for every other type |
| VertexArray.VertexArrayObject.constructor | Minimal/src/Ignis/VertexArray.c:5-27 | a zero-initialised vertex array holds no buffers, has capacity 0, and has set up and deleted nothing |
| VertexArray.VertexArrayObject.Generate | Minimal/src/Ignis/VertexArray.c:5-27 | the generated name is recorded; a failed allocation returns failure with a NULL (empty) buffer array while count, capacity and the element buffer keep their old values, so the invariant then holds only if the array was empty with capacity 0; on success the array is empty with capacity 4 and the element buffer's name, target and count are 0; either way the record holds no released pointer, since the allocation replaces it |
| VertexArray.VertexArrayObject.Delete | Minimal/src/Ignis/VertexArray.c:29-44 | every array buffer is deleted in order, then the element buffer if it was generated, after which its name and target are 0 (Minimal/src/Ignis/Core/Buffer.c:97-98); count and capacity become 0; an element buffer that was not generated is kept; the array pointer is not reset, so an array this call released stays marked freed and may not be deleted again before the next Generate |
| VertexArray.VertexArrayObject.Grow | Minimal/src/Ignis/VertexArray.c:56-64 | the reallocated block has the new length and keeps the used entries |
| VertexArray.VertexArrayObject.InsertArrayBufferAsWritten | Minimal/src/Ignis/VertexArray.c:51-69 | the sizes follow the insert as written: a full array doubles its recorded capacity before the reallocation, which stays doubled when it fails; on success the buffer is appended, on failure the buffers are unchanged |
| VertexArray.VertexArrayObject.InsertArrayBuffer | Minimal/src/Ignis/VertexArray.c:51-69 | the corrected insert keeps count <= capacity == allocation: the buffer is appended on success, and a full array whose growth fails is left exactly as it was |
| VertexArray.VertexArrayObject.AddArrayBufferLayout | Minimal/src/Ignis/VertexArray.c:84-116 | succeeds exactly when the buffer is generated and inserted; then the buffer is appended and one attribute pointer per element is set up with the wrapped sum of sizes as stride; on failure nothing is added |
| VertexArray.VertexArrayObject.SetAttribPointers | Minimal/src/Ignis/VertexArray.c:105-113 | attribute i gets index first + i and byte offset the sum of the sizes of the elements before it, both wrapping as unsigned int |
| VertexArray.VertexArrayObject.LoadElementBuffer | Minimal/src/Ignis/VertexArray.c:118-127 | the element buffer takes the generated buffer; the element count is set to the index count only on success |
| VertexArray.Stride | Minimal/src/Ignis/VertexArray.c:99-103 | the stride is the sum of type size times count over the layout, modulo 2^32 |
| VertexArray.FailedGrowthBreaksCapacity | Minimal/src/Ignis/VertexArray.c:55-63 | from a full array of 4, a failed growth as written reports failure with capacity 8 over a 4-entry block, so the next insert writes past the allocation |
| VertexArray.FailedGrowthAlwaysBreaks | Minimal/src/Ignis/VertexArray.c:55-63 | for every full non-empty array, a failed growth as written breaks count <= capacity == allocation |
| VertexArray.InsertKeepsInvariant | Minimal/src/Ignis/VertexArray.c:51-69 | the corrected insert keeps the invariant, adds exactly one entry on success, fails exactly on a full array whose growth fails, changes nothing then, and at most doubles the capacity |
| VertexArray.InsertsAgreeOnSuccess | Minimal/src/Ignis/VertexArray.c:51-69 | the corrected and the written insert agree on every input except a failed growth |
| VertexArray.BatchLayout | Minimal/src/Graphics/BatchRenderer2D.c:27-34 | the batch renderer's layout (3, 2 and 1 floats) has a 24-byte stride, byte offsets 0, 12 and 20, and attribute indices first, first + 1 and first + 2 |
| VertexArray.OffsetsAccumulate | Minimal/src/Ignis/VertexArray.c:99-113 | each attribute's offset is the previous one's plus its size, and the stride is the end of the last one |
| VertexArray.UnsizedTypesTakeNoBytes | Minimal/src/Ignis/Ignis.c:97-106 | a layout made only of types other than float, int and unsigned int has stride 0 |
| Primitives.VertexBatch.constructor | Minimal/src/Graphics/Primitives2D.c:17-28 | a new batch of a whole number of vertices is empty and has drawn nothing |
| Primitives.VertexBatch.Flush | Minimal/src/Graphics/Primitives2D.c:43-55 | an empty batch draws nothing; otherwise one draw of the pending floats as count / 6 vertices is issued and the batch emptied; the stream of floats given so far is unchanged |
| Primitives.VertexBatch.AddVertex | Minimal/src/Graphics/Primitives2D.c:57-68 | a full batch is flushed first, then exactly the vertex's six floats (x, y, r, g, b, a) are appended to the stream; the batch never holds more than its size |
| Primitives.VertexBatch.Put | Minimal/src/Graphics/Primitives2D.c:61-67 | the six stores append x, y and the colour to the pending floats |
| Primitives.VertexBatch.AddLine | Minimal/src/Graphics/Primitives2D.c:168-169 | two vertices, one line, are appended to the stream |
| Primitives.VertexBatch.AddTriangle | Minimal/src/Graphics/Primitives2D.c:259-261 | three vertices, one triangle, are appended to the stream |
| Primitives.FlushAll | Minimal/src/Graphics/Primitives2D.c:160-164 | both batches are emptied and neither stream changes |
| Primitives.RenderLine | Minimal/src/Graphics/Primitives2D.c:166-170 | the line from (x1, y1) to (x2, y2) is appended as two line vertices |
| Primitives.RenderPolygon | Minimal/src/Graphics/Primitives2D.c:191-210 | a NULL array or fewer than two coordinates adds nothing; otherwise count / 2 segments, segment k joining the point before k (the last point for k = 0) to point k |
| Primitives.PolygonOutline | Minimal/src/Graphics/Primitives2D.c:195-209 | the loop appends the count / 2 segments of the closed outline |
| Primitives.RenderRect | Minimal/src/Graphics/Primitives2D.c:178-189 | the rectangle is outlined as the four-point polygon of its corners counter-clockwise from (x, y) |
| Primitives.RenderCircle | Minimal/src/Graphics/Primitives2D.c:212-240 | 36 segments are appended, from point k to point k + 1 of the repeated rotation of (1, 0) scaled by the radius about the centre |
| Primitives.FillRect | Minimal/src/Graphics/Primitives2D.c:242-251 | the rectangle is filled as the two triangles (x,y)-(x+w,y)-(x+w,y+h) and (x+w,y+h)-(x,y+h)-(x,y) |
| Primitives.FillPolygonAsWritten | Minimal/src/Graphics/Primitives2D.c:253-263 | the loop as written steps by one coordinate: for count >= 3 it appends the triangles (v0,v1)-(v[i],v[i+1])-(v[i+2],v[i+3]) for i = 2 .. count-4, and nothing for a NULL array or count < 2 |
| Primitives.FillLoopAsWritten | Minimal/src/Graphics/Primitives2D.c:257-262 | the written loop from i = 2 while i < bound appends one triangle per i |
| Primitives.FillPolygon | Minimal/src/Graphics/Primitives2D.c:253-263 | as intended: a NULL array or fewer than two coordinates adds nothing; otherwise the triangle fan (p0, pk, pk+1) over the whole points, points - 2 triangles |
| Primitives.FanLoop | Minimal/src/Graphics/Primitives2D.c:257-262 | the fan loop appends the triangles (p0, pk, pk+1) while point k + 1 exists |
| Primitives.FillCircle | Minimal/src/Graphics/Primitives2D.c:265-294 | 36 triangles from the centre to consecutive rotated points are appended |
| Primitives.BufferSizesHoldWholeVertices | Minimal/src/Graphics/Renderer.h:50-55 | both buffer sizes are whole numbers of six-float vertices, 2048 and 3072 of them |
| Primitives.PolygonOutlineCloses | Minimal/src/Graphics/Primitives2D.c:195-209 | each segment starts where the previous one ends, and the last segment ends where the first begins: the outline is closed |
| Primitives.RectOutline | Minimal/src/Graphics/Primitives2D.c:178-189 | the rectangle outline is the four sides, starting with the closing side from the top-left to (x, y) |
| Primitives.RotateNorm | Minimal/src/Graphics/Primitives2D.c:226-227 | one rotation step scales the squared length by s^2 + c^2 |
| Primitives.RotationStaysOnCircle | Minimal/src/Graphics/Primitives2D.c:214-236 | when sin^2 + cos^2 = 1, every rotated unit vector stays on the unit circle, so every point lies at the radius from the centre |
| Primitives.CircleCounts | Minimal/src/Graphics/Renderer.h:58-59 | each circle routine emits exactly 36 segments or 36 triangles, and the first point is (x + radius, y) |
| Primitives.FillPolygonMisaligned | Minimal/src/Graphics/Primitives2D.c:257 | at count 2 the size_t bound wraps to 2^64 - 1; on a rectangle the written loop emits 3 triangles instead of 2, one with the vertex (10, 1) mixing a y with an x, which is none of its points |
| Primitives.FanAgreesOnATriangle | Minimal/src/Graphics/Primitives2D.c:253-263 | on a single triangle (6 coordinates) the loop as written and the intended fan emit the same one triangle |
| Primitives.FanVerticesArePoints | Minimal/src/Graphics/Primitives2D.c:253-263 | every vertex of the intended fan is one of the polygon's points: corner 0 or points k and k + 1 |
| FontRenderer.StrLen | Minimal/src/Graphics/FontRenderer.c:105 | the length stops before the first NUL: no NUL before it, and a NUL at it when it is inside the string |
| FontRenderer.FontRendererState.Init | Minimal/src/Graphics/FontRenderer.c:26-49 | the batch starts empty with no font bound, colour white, nothing drawn and no warning |
| FontRenderer.FontRendererState.BindFont | Minimal/src/Graphics/FontRenderer.c:60-63 | the bound font becomes the one given |
| FontRenderer.FontRendererState.BindFontColor | Minimal/src/Graphics/FontRenderer.c:65-71 | the bound font and the colour become the ones given |
| FontRenderer.FontRendererState.Flush | Minimal/src/Graphics/FontRenderer.c:78-93 | nothing when no float is queued; otherwise one draw with the bound font of 6 indices per queued quad, and both counters return to 0; the queued characters are unchanged |
| FontRenderer.FontRendererState.QueueChar | Minimal/src/Graphics/FontRenderer.c:107-114 | a quad that would reach the end of the 512-float buffer flushes the batch first; the character is queued as one quad, with a warning when its glyph failed to load |
| FontRenderer.FontRendererState.RenderText | Minimal/src/Graphics/FontRenderer.c:95-116 | with no font bound only the NoFontBound warning is added and nothing is queued or drawn; otherwise every character before the NUL is queued, in order, with one warning per glyph that failed to load, and vertex_index stays 16 times quad_count with at most 31 quads |
| FontRenderer.FontRendererState.RenderTextFormatted | Minimal/src/Graphics/FontRenderer.c:118-124 | the formatted text and its NUL are written into the 128-character line buffer, which is then rendered as RenderText says: with no font only the NoFontBound warning is added and nothing is queued or drawn; otherwise exactly its characters before a NUL are queued, in order, with one warning per glyph that failed to load |
| FontRenderer.FontRendererState.TextFieldBegin | Minimal/src/Graphics/FontRenderer.c:143-149 | the field starts at (x, y) with line height the bound font's height (0 without a font) plus the spacing |
| FontRenderer.FontRendererState.TextFieldLine | Minimal/src/Graphics/FontRenderer.c:151-159 | the line is written into the line buffer and rendered as RenderTextFormatted says (no font: only the NoFontBound warning; otherwise its characters before a NUL are queued with one warning per glyph that failed to load), then the field moves down by one line height and keeps its x |
| FontRenderer.NulTerminated | Minimal/src/Graphics/FontRenderer.c:120-123 | a text written with its NUL into a longer buffer reads back through strlen as the same characters |
| FontRenderer.BatchStaysWithinWrittenIndices | Minimal/src/Graphics/FontRenderer.c:107-108 | a text batch never holds more than 31 quads, the number whose indices the index loop as written fills, so it never draws the quad left without indices |
| FontRenderer.FlushAtThirtyOneQuads | Minimal/src/Graphics/FontRenderer.c:107-108 | the flush test vertex_index + 16 >= 512 holds exactly when 31 quads are queued |
| FontRenderer.AllLoadedNoWarnings | Minimal/src/Graphics/FontRenderer.c:110-111 | when every glyph loads no warning is reported |
| FontRenderer.StrLenStopsAtNul | Minimal/src/Graphics/FontRenderer.c:105 | characters after the first NUL are never rendered |
| Background.NewLayer | Minimal/src/Graphics/Background.c:45-52 | a pushed layer starts, and is drawn, at x, with the given y, size and parallax |
| Background.PushOutcome | Minimal/src/Graphics/Background.c:41-58 | the count either stays or grows by one, and never grows past the capacity |
| Background.Background.constructor | Minimal/src/Graphics/Background.c:22-29 | a zeroed background has no storage, no layers, capacity 0 and has deleted nothing |
| Background.Background.Alloc | Minimal/src/Graphics/Background.c:22-29 | count 0 and capacity max_layers are set whether or not the allocation succeeds; the result says whether it did; the new pointer clears any released one |
| Background.Background.Free | Minimal/src/Graphics/Background.c:31-39 | every pushed layer's texture is deleted, in order, the storage released, and count and capacity become 0; `layers` is not reset, so storage this call released stays marked freed and may not be freed again before the next Alloc |
| Background.Textures | Minimal/src/Graphics/Background.c:33-34 | the textures the free loop deletes: one per layer, the i-th being the i-th layer's texture |
| Background.Background.PushLayer | Minimal/src/Graphics/Background.c:41-58 | a full background returns 0 and changes nothing; otherwise the slot at the count is written; a failed texture returns 0 and keeps the count, a created one returns the old count and the count grows by one; earlier layers never change |
| Background.Background.Update | Minimal/src/Graphics/Background.c:60-64 | every pushed layer is updated for x and the unused slots are untouched |
| Background.ZeroIsAmbiguous | Minimal/src/Graphics/Background.c:43-57 | the result 0 is returned both on failure and for the first successful push; only the count tells them apart |
| Background.PushGrowsIff | Minimal/src/Graphics/Background.c:41-58 | a push grows the count exactly when there was room and the texture was created, and then it returns the new layer's slot |
| Background.UpdateMovesStartByAWidth | Minimal/src/Graphics/Background.c:5-13 | an update draws the layer at start + x * parallax, moves the start by at most one width either way, and changes nothing else |
| Background.ParallaxExtremes | Minimal/src/Graphics/Background.c:7-12 | parallax 0 keeps the layer at its start; parallax 1 makes it follow x exactly and never moves its start forward |
| SingleHeader.Upper | singleheader.py:20 | upper-casing keeps the length; only ASCII lower-case letters change |
| SingleHeader.LineEnd | singleheader.py:26 | the first line's length, its terminator included, lies within the file and is positive for a non-empty file |
| SingleHeader.CreateSingleheader | singleheader.py:10-35 | the output is the header, the banner, the implementation guard, every source's body followed by a blank line in list order, the closing guard and the license inside a comment |
| SingleHeader.SegmentWritten | singleheader.py:24-27 | one pass of the source loop extends the written segments by that file's segment |
| SingleHeader.TrailerWritten | singleheader.py:32-35 | writing "/*\n", the license and "*/" one after the other appends exactly the commented license block |
| SingleHeader.LinesRebuild | singleheader.py:26 | splitting a file into lines loses nothing: the lines written back one after the other are the file |
| SingleHeader.FirstLineEnds | singleheader.py:26 | the first line ends just after the first newline, or at the end of a file without one |
| SingleHeader.BodyAfterFirstLine | singleheader.py:26 | a file's copied body is exactly what follows its first newline; a file without a newline contributes nothing but the blank line |
| SingleHeader.SegmentsAppend | singleheader.py:24-27 | segments are written in list order, one per listed file, with no merging |
| SingleHeader.DuplicateCopiedTwice | singleheader.py:24-27 | a file listed twice is copied twice |
| SingleHeader.StartsWithHeader | singleheader.py:14-17 | the output starts with the header verbatim, immediately followed by the banner |
| SingleHeader.SeparatorIsComment | singleheader.py:2-8 | the banner opens and closes a C comment |
| SingleHeader.GuardUpperCase | singleheader.py:20 | the guard token has no lower-case letter, and names that differ only in case give the same token |
| SingleHeader.EmptySourceList | singleheader.py:21-29 | with no source files nothing lies between the two guard lines |
| SingleHeader.EndsWithLicense | singleheader.py:32-35 | the output ends with the license inside an opening and a closing comment, with no newline after it |
| SingleHeader.SectionRecovered | singleheader.py:10-35 | the implementation section can be cut back out of the output from the header, the name and the license alone: it is exactly the sources' segments |
| HeaderEvent.EventHandler.constructor | src/event.c:21-25 | the static handler starts with no callback and a NULL context, and nothing has been delivered |
| HeaderEvent.EventHandler.SetEventHandler | src/event.c:27-31 | the context and the callback become the ones given; nothing is delivered |
| HeaderEvent.EventHandler.DispatchEvent | src/event.c:33-37 | with a callback set, exactly one event with the given type and three words is delivered to it with the context; with none, nothing is delivered |
| HeaderEvent.EventHandler.DispatchExternalEvent | src/event.c:39-43 | with a callback set, exactly one event with the given type and the given data address is delivered; with none, nothing |
| HeaderEvent.ExternalOnlyBeyondLast | src/event.c:45-51 | an event yields its external pointer exactly when its type lies beyond the library's last type, and no built-in accessor answers for it |
| HeaderEvent.PositionAccessors | src/event.c:53-108 | the size, motion and scroll accessors answer exactly for their own type and then give back the two signed words (the size read as uint32) |
| HeaderEvent.WindowSizeRoundTrip | src/event.c:53-61 | a non-negative width and height come back unchanged from a size event |
| HeaderEvent.MouseButtonRoundTrip | src/event.c:63-88 | a button event packed as (button << 16) + action is recognised for that button only, gives back its position and its action, and is pressed or released exactly as the action says |
| HeaderEvent.PressedReleasedExclusive | src/event.c:75-123 | no event reports a button, or a key, both pressed and released |
| HeaderEvent.KeyRoundTrip | src/event.c:110-128 | a key event gives back its keycode, reports pressed or released only for the matching action, and no character |
| HeaderEvent.CharRoundTrip | src/event.c:125-128 | a character event gives back the low byte of its word as a signed char; any other type gives NUL |
| HeaderInput.InputState.constructor | src/input.c:14 | the static record starts with every key and button and both previous snapshots 0 and the cursor at the origin |
| HeaderInput.InputState.UpdateInput | src/input.c:16-20 | the current snapshot is copied into the previous one and is itself unchanged, so right after it no key or button reports an edge |
| HeaderInput.InputState.ProcessKey | src/input.c:22-31 | succeeds exactly when the keycode is valid and the stored action differs; then only that key's slot takes the action, otherwise nothing changes; a fresh press or release shows as an edge |
| HeaderInput.InputState.ProcessMouseButton | src/input.c:33-42 | succeeds exactly when the button is valid and its stored action differs; then only that slot changes |
| HeaderInput.InputState.ProcessMouseMove | src/input.c:44-49 | the cursor position becomes (x, y) and the result is always OK |
| HeaderInput.InputState.KeyModActive | src/input.c:84-99 | an empty mask is active; otherwise the mask is active exactly when every modifier it asks for is held, with either command key satisfying COMMAND |
| HeaderInput.InputState.EdgesExclusive | src/input.c:61-112 | no key or button is ever reported pressed and released at once |
| HeaderInput.InputState.OutOfRangeQueries | src/input.c:68-117 | a code outside the valid range reads as neither pressed, released nor down |
| HeaderInput.InputState.LockBitsIgnored | src/input.c:84-99 | the caps-lock and num-lock bits of a mask make no difference |
| HeaderInput.InputState.EitherCommandKey | src/input.c:94-96 | COMMAND is active exactly when the left or the right command key is down |
| HeaderInput.InputState.AltSameAsControl | src/input.c:90-93 | ALT and CONTROL test the same key slot, so they are always active together |
| KeyTable.KeyOf | src/Minimal/MinimalWindow.c:395-507 | every scan code maps to KEY_UNKNOWN or a valid keycode, and only 9-bit scan codes other than 0 map to a keycode |
| KeyTable.ScancodeTable.constructor | src/Minimal/MinimalWindow.c:393 | the static table starts with every entry 0 |
| KeyTable.ScancodeTable.CreateKeyTable | Minimal/src/Minimal/MinimalInput.c:7-119 | after creation every entry holds the keycode assigned to its scan code, and KEY_UNKNOWN where none is |
| KeyTable.ScancodeTable.TranslateKey | Minimal/src/Minimal/MinimalInput.c:121-124 | the older generation's lookup returns the assigned keycode as a signed int: KEY_UNKNOWN or a valid keycode |
| KeyTable.ScancodeTable.TranslateKeyU32 | src/Minimal/MinimalWindow.c:509 | the newer generation's uint32 lookup reads KEY_UNKNOWN as 0xFFFFFFFF, which is exactly the invalid case; every other entry is the assigned keycode |
| KeyTable.FixedPairs | src/Minimal/MinimalWindow.c:452-503 | escape, A, space and keypad enter have their set-1 scan codes, and scan code 0 stays unknown |
| KeyTable.PauseTwice | src/Minimal/MinimalWindow.c:457-458 | scan codes 0x045 and 0x146 both give PAUSE, so translation is not injective |
| GLVersion.DigitSpan | src/Minimal/Minimal.c:81-82 | the digit run atoi reads: every character before it is a digit and the next one is not |
| GLVersion.SpanToDot | src/Minimal/Minimal.c:79 | strcspn(s, "."): no '.' before it, a '.' at it, and it reaches the end exactly when there is no '.' |
| GLVersion.GetGLVersion | src/Minimal/Minimal.c:75-83 | the minor number is read just past the first '.', which lies inside the string |
| GLVersion.Decimal | src/Minimal/Minimal.c:75-83 | the decimal text of a number is non-empty, all digits, and holds no '.' or NUL |
| GLVersion.DecimalValue | src/Minimal/Minimal.c:81-82 | the digits of a number read back as that number |
| GLVersion.DigitSpanOfDigits | src/Minimal/Minimal.c:81-82 | a run of digits followed by a non-digit is read up to that non-digit |
| GLVersion.AtoiDecimal | src/Minimal/Minimal.c:81-82 | atoi reads a number's decimal text back, whatever non-digit text follows it |
| GLVersion.GLVersionPrefix | src/Minimal/Minimal.c:75-83 | "major.minor" followed by text that does not continue the minor number parses into major and minor |
| GLVersion.GLVersionRoundTrip | src/Minimal/Minimal.c:75-83 | "major.minor" parses back into the two numbers |
| GLVersion.ThirdComponentIgnored | src/Minimal/Minimal.c:79-82 | only the first '.' counts: "major.minor.patch" parses as major and minor |
| GLVersion.SpanToDotAfterDigits | src/Minimal/Minimal.c:79 | strcspn passes over the major number's digits to the '.' after them |
| Win32App.GetVersionString | src/Minimal/Minimal.c:66-72 | the version string is "1.1.0" and holds a '.' |
| Win32App.Not | src/Minimal/Minimal.c:164-165 | !b is 1 exactly for 0 and is always 0 or 1 |
| Win32App.App.constructor | src/Minimal/Minimal.c:85-88 | a new application has debug and vsync 0, no swap interval set and no event received |
| Win32App.App.Load | src/Minimal/Minimal.c:85-119 | debug and vsync are cleared; a failed init fails with the GL version untouched and the string unread; otherwise the GL version string is parsed into the window request; a failed window creation then fails with the timer unchanged; otherwise all five timer fields are reset to zero and the result is on_load's, or success without one |
| Win32App.App.EnableDebug | src/Minimal/Minimal.c:161 | the debug flag becomes b |
| Win32App.App.EnableVsync | src/Minimal/Minimal.c:162 | the swap interval b is handed to WGL and the vsync flag becomes b |
| Win32App.App.ToggleDebug | src/Minimal/Minimal.c:164 | the debug flag becomes !debug |
| Win32App.App.ToggleVsync | src/Minimal/Minimal.c:165 | the vsync flag becomes !vsync and that interval is handed to WGL |
| Win32App.App.DispatchEvent | src/Minimal/Minimal.c:169-173 | the event with the given four words reaches on_event exactly once when it is set, and nothing happens otherwise |
| Win32App.VersionStringParses | src/Minimal/Minimal.c:59-72 | the version string parses, with the GL version parser, back into the major and minor numbers 1 and 1 |
| Win32App.ToggleTwice | src/Minimal/Minimal.c:164-165 | toggling twice restores a flag exactly when it held 0 or 1; any other value comes back as 1 |
| Win32App.KeyQueries | src/Minimal/Minimal.c:176-192 | a key query holds only for a current context and a valid keycode: pressed when the frame state went from release to press, released for the reverse, down when the latest action is a press; never pressed and released at once |
| Win32App.QueriesAfterUpdate | src/Minimal/Minimal.c:176-186 | after a frame update a key reads pressed exactly when it was up and the latest action is a press (released in the mirror case), and after two updates without a new action it reads as neither |
| Win32App.MouseQueries | src/Minimal/Minimal.c:194-204 | a mouse query reads the stored byte of a valid button of the current context: pressed exactly for PRESS, released exactly for RELEASE, neither for an invalid button or no context |
| LegacyApp.GetVersionString | Minimal/src/Minimal/Minimal.c:77-83 | the version string is "1.0.0" and holds a '.' |
| LegacyApp.App.constructor | Minimal/src/Minimal/Minimal.c:96-99 | a new application has debug and vsync 0 |
| LegacyApp.App.Load | Minimal/src/Minimal/Minimal.c:96-122 | debug and vsync are cleared; a failed init fails with the GL version untouched and the string unread; otherwise the GL version string is parsed into the window request; a failed window creation then fails with the timer unchanged; otherwise the timer's frames, fps, delta and start are reset to zero and the result is on_load's, or success without one |
| LegacyApp.App.EnableDebug | Minimal/src/Minimal/Minimal.c:161 | the int argument is stored in the one-byte debug flag (its low byte) |
| LegacyApp.App.EnableVsync | Minimal/src/Minimal/Minimal.c:162 | only the vsync flag is stored, as a byte; no swap interval is set |
| LegacyApp.App.ToggleDebug | Minimal/src/Minimal/Minimal.c:164 | the debug flag becomes 1 when it was 0 and 0 otherwise |
| LegacyApp.App.ToggleVsync | Minimal/src/Minimal/Minimal.c:165 | the vsync flag becomes 1 when it was 0 and 0 otherwise |
| LegacyApp.VersionStringParses | Minimal/src/Minimal/Minimal.c:70-83 | the version string parses, with the GL version parser, back into the major and minor numbers 1 and 0 |
| LegacyApp.KeyQueriesReadAddress | Minimal/src/Minimal/Minimal.c:170-180 | as written, the key queries read the address the key getter returns (Minimal/src/Minimal/MinimalWindow.h:91), not the key's state: released holds exactly for a NULL pointer, pressed exactly when the address's low byte is 1 or 2, never both, and an address ending in 0x00 reads as neither |
| LegacyApp.KeyQueries | Minimal/src/Minimal/Minimal.c:170-180 | as intended (see Findings), on the key's state: the missing-key sentinel reads as neither pressed nor released, and every key state (release, press, repeat) reads as exactly one of them, repeat counting as pressed |
| LegacyApp.MouseQueriesIgnoreState | Minimal/src/Minimal/Minimal.c:182-192 | as written, the mouse queries test the constants: every existing button reads as pressed, a released one included, and nothing ever reads as released |
| LegacyApp.MouseQueriesReadState | Minimal/src/Minimal/Minimal.c:182-192 | as intended, a button reads pressed exactly for PRESS and released exactly for RELEASE, never both, the sentinel as neither; the intended and written pressed agree only on a pressed button or the sentinel |
| LegacyWindow.Window.constructor | Minimal/src/Minimal/MinimalWindow.c:365-379 | a new window is open, every key and mouse button is RELEASE and no callback is set |
| LegacyWindow.Window.UpdateKey | Minimal/src/Minimal/MinimalWindow.c:242-253 | a valid key moves along the press/repeat/release state machine, every other key state is kept, and the key callback fires whether or not the key is valid |
| LegacyWindow.Window.UpdateMouseButton | Minimal/src/Minimal/MinimalWindow.c:255-259 | a valid button takes the action as its state byte, the others are kept, and the button callback fires |
| LegacyWindow.Window.CheckMouseButtons | Minimal/src/Minimal/MinimalWindow.c:222-231 | the index of the first pressed button, one past the last button exactly when none is pressed |
| LegacyWindow.Window.KeyMessage | Minimal/src/Minimal/MinimalWindow.c:288-300 | a key message is decoded into scan code, key and action, and the window's key state and callback trace change as UpdateKey says |
| LegacyWindow.Window.MouseButtonMessage | Minimal/src/Minimal/MinimalWindow.c:301-322 | the mouse is captured when no button was down before, released when none is down after, the button state is updated and the result is 1 only for the X buttons |
| LegacyWindow.Window.CursorMessage | Minimal/src/Minimal/MinimalWindow.c:323-330 | the signed client coordinates of a move message reach the cursor callback |
| LegacyWindow.Window.CloseWindow | Minimal/src/Minimal/MinimalWindow.c:441-442 | after closing, the window reports that it should close |
| LegacyWindow.Window.SetCallback | Minimal/src/Minimal/MinimalWindow.c:444-450 | setting a callback adds its hook, clearing it removes it, and no other hook changes |
| LegacyWindow.KeyStateMachine | Minimal/src/Minimal/MinimalWindow.c:244-250 | press of a released key gives PRESS, of a pressed or repeating key REPEAT, release gives RELEASE, other actions keep the state, and the state stays within the three key states |
| LegacyWindow.HeldKeyRepeats | Minimal/src/Minimal/MinimalWindow.c:247-248 | a key held through two or more press messages reads as REPEAT |
| LegacyWindow.KeyMessageRecovers | Minimal/src/Minimal/MinimalWindow.c:293-295 | the scan code (with the extended bit) and the press or release encoded in a key message are what the window decodes |
| LegacyWindow.CursorRoundTrip | Minimal/src/Minimal/MinimalWindow.c:325-326 | two signed 16-bit coordinates packed into a message are decoded unchanged |
| LegacyInput.ExactlyOneQuery | Minimal/src/Minimal/MinimalInput.c:126-143 | for a valid key exactly one of the pressed and released queries holds; for a key out of range neither does |
| Win32Event.OtherTypesGetSentinels | src/Minimal/MinimalEvent.c:9-62 | an event of another type reads as no button, no movement, KEY_UNKNOWN for the three key queries and the NUL character |
| Win32Event.MouseButtonRoundTrip | src/Minimal/MinimalEvent.c:9-32 | a mouse-button event packed from a button and an action reads back as that button, reported as pressed or released according to the action, with the position written |
| Win32Event.PressedReleasedExclusive | src/Minimal/MinimalEvent.c:22-57 | no event reports a button (or a key) as both pressed and released |
| Win32Event.KeyRoundTrip | src/Minimal/MinimalEvent.c:44-57 | a key event gives its keycode back, and the pressed and released queries follow its action |
| Win32Event.UnmappedKeyReadsUnknown | src/Minimal/MinimalEvent.c:44-47 | a key event carrying the table's no-key entry reads as KEY_UNKNOWN |
| Win32Util.LoggerGetLevelStr | src/Minimal/MinimalUtil.c:35-46 | the level prefix is empty exactly for a level outside TRACE..CRITICAL |
| Win32Util.LevelStrDistinct | src/Minimal/MinimalUtil.c:35-46 | the five level prefixes are pairwise different and each ends with the colour reset followed by a space |
| Win32Util.Timer.Reset | src/Minimal/MinimalUtil.c:88-96 | all five timer fields are zero |
| Win32Util.Timer.Start | src/Minimal/MinimalUtil.c:98-102 | the delta is the time since the previous frame start, which becomes the given time |
| Win32Util.Timer.End | src/Minimal/MinimalUtil.c:104-113 | the frame is counted with 32-bit wrap-around; once more than a second has passed the count becomes the fps, restarts at zero and the report time advances by one second, otherwise fps and report time are kept |
| Win32Window.FirstPressed | src/Minimal/MinimalWindow.c:61-69 | the index of the first pressed button: every button before it is not pressed, and it is pressed unless it is one past the end |
| Win32Window.ScancodeOf | src/Minimal/MinimalWindow.c:165 | the scan code taken from a key message is an index into the 512-entry key table |
| Win32Window.Window.constructor | src/Minimal/MinimalWindow.c:300-339 | a new window has the requested size, is open, every key record is zero, every mouse button is RELEASE and only the callbacks the source leaves uninitialised can still be set |
| Win32Window.Window.DispatchEvent | src/Minimal/MinimalWindow.c:81-84 | the event goes to the dispatcher with the window's handler only when a dispatcher is set |
| Win32Window.Window.CallChar | src/Minimal/MinimalWindow.c:86-90 | the character callback (if set) hears the code point, then a CHAR event is dispatched |
| Win32Window.Window.CallKey | src/Minimal/MinimalWindow.c:92-97 | a valid key records the action in its state record and nothing else changes; the callback and the KEY event follow whether or not the key is valid |
| Win32Window.Window.CallMouseButton | src/Minimal/MinimalWindow.c:99-104 | a valid button stores the action byte; the callback and a MOUSE_BUTTON event packing button and action follow |
| Win32Window.Window.CallCursorPos | src/Minimal/MinimalWindow.c:106-110 | the cursor callback hears the position, then a MOUSE_MOVED event is dispatched |
| Win32Window.Window.CallMouseScroll | src/Minimal/MinimalWindow.c:112-116 | the scroll callback hears both offsets, then a MOUSE_SCROLLED event is dispatched |
| Win32Window.Window.CallWindowSize | src/Minimal/MinimalWindow.c:118-125 | the new size is stored before the callback and the WINDOW_SIZE event |
| Win32Window.Window.CallWindowIconify | src/Minimal/MinimalWindow.c:127-131 | the iconify callback hears the flag and the window stores it |
| Win32Window.Window.CallWindowMaximize | src/Minimal/MinimalWindow.c:133-137 | the maximize callback hears the flag and the window stores it |
| Win32Window.Window.SizeMessage | src/Minimal/MinimalWindow.c:211-222 | the minimised and maximised flags follow the size request, each callback hears only of a flag that changed, and the size comes from the two low words of lParam |
| Win32Window.Window.KeyMessage | src/Minimal/MinimalWindow.c:160-172 | a key message is decoded into scan code, key and action and handled as CallKey says |
| Win32Window.Window.CheckMouseButtons | src/Minimal/MinimalWindow.c:61-69 | the index of the first pressed button, one past the last exactly when no button is pressed |
| Win32Window.Window.MouseButtonMessage | src/Minimal/MinimalWindow.c:173-195 | the mouse is captured when no button was down before, released when none is down after, and the button is handled as CallMouseButton says |
| Win32Window.GetMouseButton | src/Minimal/MinimalWindow.c:71-78 | the button decoded from a mouse message is always one of the five valid buttons, and button 4 or 5 exactly for the X button messages (the oldest generation's copy, Minimal/src/Minimal/MinimalWindow.c:233-240, is the same) |
| Win32Window.Window.MouseButtonProc | src/Minimal/MinimalWindow.c:173-195 | a mouse button message stores PRESS for a button-down and RELEASE for a button-up in the decoded button, captures and releases the mouse around it as MouseButtonMessage says, reports the signed coordinates of lParam, and returns 1 only for the X buttons |
| Win32Window.Window.CursorMessage | src/Minimal/MinimalWindow.c:196-200 | the signed client coordinates of a move message reach the cursor callback as unsigned words and the MOUSE_MOVED event signed again, unchanged |
| Win32Window.ScrollOf | src/Minimal/MinimalWindow.c:8 | the wheel offset is the signed high word of wParam divided by 120 and truncated toward zero: the whole number of notches, rounded toward zero |
| Win32Window.Window.WheelMessage | src/Minimal/MinimalWindow.c:201-210 | a vertical wheel message scrolls (0, notches) and a horizontal one (notches, 0), to the callback and the MOUSE_SCROLLED event |
| Win32Window.WheelNotches | src/Minimal/MinimalWindow.c:8 | a wheel message whose high word is n times 120 scrolls exactly n notches, whatever its low word |
| Win32Window.Window.UpdateKeyStates | src/Minimal/MinimalWindow.c:511-518 | every key record advances by one frame: the action becomes the current state and the current state the previous one |
| Win32Window.Window.CloseWindow | src/Minimal/MinimalWindow.c:380-381 | after closing, the window reports that it should close |
| Win32Window.Window.SetCallback | src/Minimal/MinimalWindow.c:383-389 | setting a callback adds its hook, clearing it removes it, and no other hook changes |
| Win32Window.Window.SetEventDispatch | src/Minimal/MinimalWindow.c:371-375 | the handler and dispatcher are replaced |
| Win32Window.GetKeyState | src/Minimal/MinimalWindow.c:520-523 | a key record exactly for an existing window and a valid key, and then the window's own record |
| Win32Window.GetMouseButtonState | src/Minimal/MinimalWindow.c:525-528 | -1 for a missing window or an invalid button, else the stored byte read as a signed byte |
| Win32Window.FirstPressedUnique | src/Minimal/MinimalWindow.c:61-69 | the first pressed index is the only index with its two defining properties |
| Win32Window.AdvanceTwiceSettles | src/Minimal/MinimalWindow.c:511-518 | two frame updates without a key event leave previous, current and action equal to the last action |
| Win32Window.SizeFlagRule | src/Minimal/MinimalWindow.c:213-218 | minimised exactly on a minimise request; a restore clears both flags; a maximise sets only maximised; minimising keeps a maximised window maximised |
| Win32Window.KeyMessageDecodes | src/Minimal/MinimalWindow.c:165-167 | the scan code with the extended bit and the press or release are recovered from any key message, whatever its repeat count and previous state |
| Win32Window.UnknownScancodeChangesNoState | src/Minimal/MinimalWindow.c:165-170 | a scan code the table does not map arrives as the 0xFFFFFFFF key, which is not a valid key |

## Left out

- File and OS input/output of `singleheader.py` (opening, reading and writing files, the `__main__` configuration): the header, sources and license are passed in as strings.
- Window creation, message pumps, pixel formats, GL contexts, `MinimalRun`, `MinimalDestroy`, `MinimalTerminate` and `MinimalGetTime`: foreign Win32, WGL and GLFW calls. The modifier state and polled key and button states they would supply are parameters.
- Cursor position queries (`MinimalGetCursorPos` and its relatives) read the OS cursor, so they are not part of this model.
- `MinimalGetKeyState` and `MinimalGetMouseButtonState` of the oldest generation are only declared in its `MinimalWindow.h`, so their bodies are not part of this model. The mouse queries take the int8_t state the mouse getter returns as a parameter. The key getter returns a pointer: the as-written key queries take its address (0 for NULL) and read its low byte as an int8_t, as common compilers convert a pointer to a narrower integer; C leaves that conversion implementation-defined.
- The application callback setters (`on_load`, `on_update` and the rest): `Load` takes what `on_load` returns as a parameter.
- The scan-code tables of the platform files repeat the assignments of the `KeyTable` model; the platform copy that returns `MINIMAL_MOUSE_BUTTON_LAST` instead of `LAST + 1` from its button check is not part of this model.
- OpenGL calls (buffer uploads, shader uniforms, texture binds, draw calls): each flush is one `Draw` value appended to `draws`. Buffer generation is reduced to a name parameter, where 0 means failure. GL enumerant values are those of the OpenGL headers.
- `ignisAddArrayBuffer` is not modelled separately: `AddArrayBufferLayout` performs the same insertion into the buffer array.
- Shaders, texture loading, `GetTexture2DSrcRect`, `BatchRenderer2DRenderTextureFrame`, and the Start/Destroy functions of the graphics modules: GL resource management with no bookkeeping of their own.
- `BackgroundRender` and `BackgroundLayerRender` only issue batch renderer draws. `BackgroundLayerUpdate` is float arithmetic; only its start-position rule is stated.
- `Primitives2DRenderLineDir` needs `sqrtf`. In the circle functions, `sinf` and `cosf` of the step angle are parameters.
- Floating-point values are modelled as reals, without rounding; vertex coordinates and colours are opaque payloads wherever only their count matters.
- Glyph quad coordinates, the pen position and the font height offset in `FontRendererRenderText` are not modelled; `vsnprintf` is a parameter that supplies the formatted text.
- Logging output (`MinimalLoggerPrint*`), error callbacks and allocator hooks are not modelled: they print or call user code. Only the level prefixes are modelled.
- FontRenderer.FontRendererState.RenderTextFormatted: requires the formatted text and its NUL to fit the 128-byte line buffer, because the source sizes the `vsnprintf` write by the formatted length plus one, not by the buffer, so a longer text overflows `line_buffer`, which the model does not represent. The same holds for FontRenderer.FontRendererState.TextFieldLine.
- GLVersion.GetGLVersion: requires a '.' in the string, because without one the source reads past the terminator; `atoi` overflow is not modelled.
- HeaderInput.InputState.KeyPressed: requires an in-range key code, because the source reads `keys[keycode]` before its range check.
- AppWindow.Window.CallKey: requires the window's app pointer to be set, because the forward to the application dereferences it; the same holds for the other `MinimalCall*` helpers of that generation.
- VertexArray.VertexArrayObject.InsertArrayBuffer: requires a positive capacity, because an insertion after `ignisDeleteVertexArray` doubles a capacity of 0. The same holds for VertexArray.VertexArrayObject.InsertArrayBufferAsWritten.
- Primitives.FillPolygonAsWritten: excludes a count of 2, for which the source reads past the vertex array.
- SingleHeader.Upper: upper-cases ASCII letters only. Python's `str.upper` also maps letters outside ASCII, some of them to several characters, so for a library name outside ASCII the model's include guard differs from the script's.
- Background.Background.PushLayer: requires storage whenever a layer would still fit, because after a failed `BackgroundAlloc` the source keeps `max_layers` with a NULL `layers` and the next push writes through that NULL pointer; such a push is not modelled.
- VertexArray.VertexArrayObject.Generate: after a failed allocation the invariant holds only for an array that was empty with capacity 0, so insertion and deletion, which require it, are not modelled on an array whose generation failed.
- Background.Background.Free: requires that the array was not already released, because the source keeps the freed `layers` pointer and a second `BackgroundFree` before the next `BackgroundAlloc` frees it twice; a ghost `freed` flag tracks this, and the double free is not modelled.
- VertexArray.VertexArrayObject.Delete: requires that the buffer array was not already released, because the source keeps the freed `array_buffers` pointer and a second `ignisDeleteVertexArray` before the next `ignisGenerateVertexArray` frees it twice; a ghost `freed` flag tracks this, and the double free is not modelled.
- LegacyWindow: `MINIMAL_MOUSE_BUTTON_LAST`, which sizes the oldest generation's `mouse_buttons` and bounds its button validator, is defined in none of that generation's headers; the model assumes the Win32 generation's value.
- HeaderEvent.UParam, HeaderEvent.LParam and HeaderEvent.RParam: an external event's pointer payload reads as three zero parameter words, whereas in C the union makes the words share the pointer's bytes.
- LegacyApp.App: the oldest generation's `MinimalTimer` (frames, fps and the `clock_t` fields `deltatime` and `start`) is represented by the Win32 generation's timer record, with `start` as `lastframe` and an extra `seconds` field that its reset also zeroes. That generation's `MinimalTimerStart` and `MinimalTimerEnd` read `clock()` and are not part of this model.
- `FontRendererRenderTextVA` passes the same `va_list` to a second `vsnprintf` after the first has consumed it, without `va_copy`. That is undefined behaviour in C, and the model's formatted-text parameter does not capture it.
- Concurrency: the library is single-threaded and its static state is modelled as one object per module.

## Findings

| source | as written | input that shows it | evidently intended | confidence | as-written member | corrected member |
|---|---|---|---|---|---|---|
| Minimal/src/Minimal/Minimal.c:170-180 | the key state getter returns a pointer to the key's state; `MinimalKeyPressed` stores it in an `int8_t` and `MinimalKeyReleased` compares the pointer with `MINIMAL_RELEASE` (0) | a key that exists and is released: its state pointer is not NULL, so it never reads as released, and it reads as pressed whenever its address ends in 0x01 or 0x02 | dereference the pointer and compare the key's state with PRESS/REPEAT or RELEASE | high for released, medium for pressed (the pointer-to-int8_t conversion is implementation-defined); not executed | LegacyApp.KeyQueriesReadAddress | LegacyApp.KeyQueries |
| Minimal/src/Minimal/Minimal.c:182-192 | the mouse button queries return `state >= 0 && MINIMAL_PRESS` (or `MINIMAL_RELEASE`), a test of the constant rather than of the state | a valid button whose state is RELEASE is reported as pressed, and no button is ever reported as released | compare the button's state byte with PRESS or RELEASE | high, not executed | LegacyApp.MouseQueriesIgnoreState | LegacyApp.MouseQueriesReadState |
| src/minimal/window.c:119-155 | in the getters (lines 119-127) and in the helpers that store an action (lines 141-155), the 32-bit key and button codes are truncated to `int16_t` and `int8_t` before the range check, then used untruncated as the index | key 0x10020 passes the check, so the getter reads and the helper writes far past the end of `key_state`; button 0x100 likewise | check the code as it is used for the index | high, not executed | AppWindow.TruncatedKeyPasses | AppWindow.Window.CallKey |
| Minimal/src/Graphics/Renderer.c:6 | the loop runs while `i < max - step`, so the last quad gets no indices | max = 12, step = 6 writes only the first 6 of the 12 indices | run while `i < max` so every quad is indexed | high, not executed | Renderer.LastQuadSkipped | Renderer.GenerateIndices |
| Minimal/src/Ignis/VertexArray.c:53-63 | the capacity is doubled before `realloc`, and stays doubled when the reallocation fails | a full array of capacity 4 whose growth fails reports capacity 8 with storage for 4 | double the capacity only after a successful reallocation | high, not executed | VertexArray.FailedGrowthBreaksCapacity | VertexArray.VertexArrayObject.InsertArrayBuffer |
| Minimal/src/Graphics/Primitives2D.c:253-263 | the fan loop steps one coordinate at a time, so triangles mix x and y values, and the `size_t` bound `count - 3` wraps for a count of 2 | a square given as 8 coordinates yields the vertex (10, 1), which mixes a y and an x value and is none of the square's points; a count of 2 makes the bound 2^64 - 1 | step one point (two coordinates) at a time and stop at the last full triangle | high, not executed | Primitives.FillPolygonMisaligned | Primitives.FillPolygon |
