# Glyph cache, text layout and uniform-location cache

This project models the two caches of a small OpenGL text renderer and the
loop that lays text out with one of them:

- **The glyph cache** (`Characters`, a map from `char` to a `Character`
  holding a texture name, the bitmap size, the bearing and the advance in
  1/64 pixel). `LoadFont` fills it by rasterising code points 0 to 127.
  `InitBuffers` gives the dynamic vertex buffer room for one quad of 6
  vertices of 4 floats. `RenderText` walks a string. For each character it
  reads the entry with `Characters[c]`, computes the glyph's quad from the pen,
  the bearing, the size and the scale, overwrites the vertex buffer with it,
  issues one 6-vertex draw and moves the pen right by `(advance >> 6) * scale`.
- **The uniform-location cache** of `ShaderProgram`. `GetUniformLocation`
  asks the driver for a name's location only the first time and stores the
  answer. Every `SetUniform` overload goes through it. `LoadShaders` clears
  the map when the program is created. `Use` only makes a nonzero program
  current.

The model follows the code. `Characters[c]` is `std::map::operator[]`, so a
character without an entry is not skipped. A value-initialised entry is
inserted: texture 0, zero size, bearing and advance. A zero-size quad is then
drawn at the pen, and the pen does not move. When `LoadShaders` fails
(`glCreateProgram` returns 0), the handle becomes 0 but the map still holds
the locations of the previous program. The model keeps that behaviour.

Files:

- `glyph_layout.dfy` (module `GlyphLayout`): the cache entries, the
  font-loading loop as a function (`LoadGlyphs`, one turn per code point
  `LoadGlyph`), the quad (`Quad`, `Flatten`), the draws one render issues
  (`Layout`, `PenX`), the lookups' effect on the cache (`AfterLookups`), and
  the lemmas about them.
- `text_renderer.dfy` (module `TextRenderer`): class `Renderer` holding the
  renderer's globals. These are the cache, the vertex buffer as an
  `array<real>`, a texture-name counter and traces of the rasteriser calls
  and of the draw calls. Its methods are proved against the functions of
  `GlyphLayout`.
- `shader.dfy` (module `Shader`): the memoised lookup as a function
  (`Resolve`, and `ResolveAll` for a run of lookups) with its lemmas, and
  class `ShaderProgram`. The class has the handle, the map and a trace of
  the driver calls it makes.

The rasteriser is a function from (pixel height, code point) to an optional
bitmap description. The driver's `glGetUniformLocation` is a function of
(program, name). Texture names come from a counter that starts at 1, so they
are fresh and never 0.

## Model

| member | source | states |
|---|---|---|
| GlyphLayout.ScaledIsProduct | src/main.cpp:128-131 | the repeated-addition `Scaled(n, scale)` used for every metric-times-scale product equals `n * scale` |
| GlyphLayout.CodePointsAscending | src/main.cpp:65 | the code points the loading loop asks for are 0, 1, …, 127, each once and in ascending order |
| GlyphLayout.LoadGlyphsKeys | src/main.cpp:65-97 | after the loop the keys are the old keys plus exactly the code points whose rasterisation succeeded; from an empty cache, exactly those, all in [0, 128) |
| GlyphLayout.LoadGlyphsEntries | src/main.cpp:67-97 | entries already present are never overwritten; every new entry is for a code point that rasterised and records size (width, rows), bearing (left, top) and advance as a 32-bit unsigned value, with a texture name handed out during the loop |
| GlyphLayout.LoadGlyphsTexturesDistinct | src/main.cpp:73-97 | two different new entries never share a texture name |
| GlyphLayout.QuadShape | src/main.cpp:128-139 | the six vertices come in the listed order with texture coordinates (0,0),(0,1),(1,1),(0,0),(1,1),(1,0); each sits at its corner of the box whose left edge is x + bearing.x·scale, top edge y + bearing.y·scale, width size.x·scale and height size.y·scale; vertex 1 is (xpos, ypos) |
| GlyphLayout.FlattenRows | src/main.cpp:133-143 | in the upload, vertex i occupies floats 4i to 4i+3: position, then texture coordinate |
| GlyphLayout.PenXStep | src/main.cpp:153 | drawing character i moves the pen right by (advance >> 6)·scale of the entry read for it |
| GlyphLayout.LayoutPen | src/main.cpp:124-153 | a render issues exactly one draw per character, missing ones included; draw i is the quad of the entry read for character i with the pen at x + scale·Σ(advance >> 6) over the characters before it, on the unchanged baseline y |
| GlyphLayout.MissingGlyphDraw | src/main.cpp:126-153 | a character without an entry is drawn with texture 0 and a quad whose six vertices all sit at the pen on the baseline, and the pen does not move |
| GlyphLayout.MissingGlyphsAdvanceNothing | src/main.cpp:126-153 | the total advance of a string equals that of the string with its missing characters removed |
| GlyphLayout.AfterLookupsGrowth | src/main.cpp:126 | the lookups of a render add exactly the string's missing characters as keys, with zero entries, and leave existing entries untouched |
| GlyphLayout.AfterLookupsRead | src/main.cpp:126 | after any run of lookups, each later lookup reads what it would have read before |
| GlyphLayout.LayoutRepeatable | src/main.cpp:124-153 | rendering a string after an earlier render issues the same draws as rendering it first |
| TextRenderer.Renderer.constructor | src/main.cpp:36-37 | the cache starts empty, no buffer storage, no calls made |
| TextRenderer.Renderer.LoadFont | src/main.cpp:45-103 | when the library or the face fails nothing changes; otherwise the rasteriser is called for code points 0..127 in order and the cache and texture counter end as `LoadGlyphs` says; every entry's texture was handed out |
| TextRenderer.Renderer.LoadCharacter | src/main.cpp:67-97 | one turn for code point c: on failure nothing but the call is recorded; on success a fresh texture name is taken and the entry is inserted only if the key is absent |
| TextRenderer.Renderer.InitBuffers | src/main.cpp:106-115 | the vertex buffer gets storage for exactly 6 × 4 floats; nothing else changes |
| TextRenderer.Renderer.DrawGlyph | src/main.cpp:128-151 | the whole buffer is overwritten with the flattened quad of the glyph at the pen, and one draw of 6 vertices with the glyph's texture is recorded |
| TextRenderer.Renderer.RenderGlyph | src/main.cpp:126-153 | one character's turn: the cache gains the zero entry if the key was missing, the draw uses the entry read, the buffer holds that draw's vertices, and the pen moves by the entry's (advance >> 6)·scale |
| TextRenderer.Renderer.DrawString | src/main.cpp:124-154 | the cache ends as `AfterLookups` of the string, the draws appended are exactly `Layout`, the buffer holds the last draw's vertices, and the pen ends at `PenX` of the whole string |
| TextRenderer.Renderer.RenderText | src/main.cpp:118-158 | sets the colour uniform once through the shader's memoised lookup, then the same outcome as `DrawString` |
| Shader.Resolve | src/ShaderProgram.cpp:190-203 | after a lookup the name is a key and the result is its stored value; the driver is asked iff the name was not cached, and then the answer is stored; a cached name leaves the map unchanged; no other entry changes or disappears; a map of current locations stays current |
| Shader.ResolveAllGrows | src/ShaderProgram.cpp:192-199 | over any run of lookups the keys become the old keys plus the names looked up and existing entries never change |
| Shader.ResolveAllConsistent | src/ShaderProgram.cpp:198-202 | every lookup in a run returns the location finally stored for its name, so repeated lookups of a name agree |
| Shader.ResolveAllQueriesOnce | src/ShaderProgram.cpp:192-199 | over any run of lookups the driver is asked about each name at most once, and exactly about the names that were not cached |
| Shader.ShaderProgram.constructor | src/ShaderProgram.cpp:8-12 | the handle starts at 0 and loading then sets it to what program creation returned, with an empty map |
| Shader.ShaderProgram.LoadShaders | src/ShaderProgram.cpp:42-60 | returns false iff program creation yields 0, and then the map is left as it was; otherwise returns true with an empty map |
| Shader.ShaderProgram.Use | src/ShaderProgram.cpp:88-94 | makes the program current only when the handle is positive, and does nothing otherwise |
| Shader.ShaderProgram.GetProgram | src/ShaderProgram.cpp:130-133 | returns the handle and changes nothing |
| Shader.ShaderProgram.GetUniformLocation | src/ShaderProgram.cpp:190-203 | the result, the new map and the driver calls are those of `Resolve`; a map of current locations stays current and the result is the driver's location |
| Shader.ShaderProgram.SetUniform | src/ShaderProgram.cpp:139-184 | every overload resolves the location like `GetUniformLocation` and then sets the value at that location |

## Left out

- The window, input callbacks, wireframe toggle and main loop (src/main.cpp:160-266) are windowing plumbing.
- The orthographic projection matrix is built by an external math library.
- GL state calls are not modelled. This covers vertex-array and buffer binding, attribute pointers, the active texture unit, texture parameters, pixel-store alignment, the texture image upload and the unbinding at the end. The draw trace records the texture, the vertex range and the vertices drawn.
- FreeType is not modelled. Library start-up and face opening become two booleans. The pixel height 48 is passed to the rasteriser. The rasteriser stands for glyph loading. Bitmap pixels and releasing the face and library are not modelled.
- Shader source reading, compiling, linking, error-log retrieval and the destructor's program deletion are file I/O and driver work. `LoadShaders` takes the value `glCreateProgram` returns as a parameter.
- Texture names come from a counter starting at 1. Real names are chosen by the driver. The model relies only on their being fresh and nonzero.
- Layout arithmetic is over exact reals. Single-precision rounding and the int-to-float conversions are not modelled.
- `char` is taken as signed (-128..127). The loading loop only inserts keys 0..127.
- TextRenderer.Renderer.RenderText: requires that the buffer has storage (`InitBuffers` ran before). Without it the source's buffer update is a GL error, which the model does not capture.
- TextRenderer.Renderer.RenderText: the final pen position is a ghost result, because the source keeps it in a local variable.
