/**
 The text renderer's process-wide state and its three operations: building
 the glyph cache from a font, sizing the dynamic vertex buffer, and drawing
 one string. GPU calls are not modelled as behaviour: texture names come
 from a counter, the vertex buffer is an array of floats, and every glyph
 rasterisation and draw call is appended to a trace.
 */
module TextRenderer {
  import opened GlyphLayout
  import opened Shader

  class Renderer {
    /** The glyph cache, keyed by character. */
    var characters: map<CChar, Character>
    /** The dynamic vertex buffer's storage; empty until InitBuffers. */
    var vbo: array<real>
    /** The next texture name the driver hands out; 0 is never handed out. */
    var nextTexture: nat
    /** The code points passed to the rasteriser, in call order. */
    var glyphLoads: seq<int>
    /** The draw calls issued, in order. */
    var draws: seq<DrawCall>

    /** Every cache entry names a texture that has been handed out, or the
        default texture 0. */
    ghost predicate Valid()
      reads this
    {
      && nextTexture >= 1
      && forall c :: c in characters ==> characters[c].textureId < nextTexture
    }

    /** The state before anything is loaded: an empty cache, a buffer
        without storage, no calls made. */
    constructor ()
      ensures Valid()
      ensures characters == map[] && vbo.Length == 0 && nextTexture == 1
      ensures glyphLoads == [] && draws == []
    {
      characters := map[];
      vbo := new real[0];
      nextTexture := 1;
      glyphLoads := [];
      draws := [];
    }

    /** Builds the glyph cache. If the font library cannot start or the face
        cannot be opened nothing changes. Otherwise code points 0 to 127 are
        rasterised once each, in ascending order; a failure skips that code
        point, and every success takes a fresh texture name and inserts its
        entry unless the key is already present. */
    method LoadFont(libraryReady: bool, faceOpened: bool, raster: Rasteriser)
      requires Valid()
      modifies this
      ensures Valid()
      ensures vbo == old(vbo) && draws == old(draws)
      ensures !(libraryReady && faceOpened) ==>
        characters == old(characters) && nextTexture == old(nextTexture) && glyphLoads == old(glyphLoads)
      ensures libraryReady && faceOpened ==>
        && characters == LoadGlyphs(raster, old(characters), old(nextTexture), 0).cache
        && nextTexture == LoadGlyphs(raster, old(characters), old(nextTexture), 0).nextTexture
        && glyphLoads == old(glyphLoads) + CodePoints(GlyphRangeEnd)
    {
      if !libraryReady {
        return;
      }
      if !faceOpened {
        return;
      }
      ghost var target := LoadGlyphs(raster, characters, nextTexture, 0);
      var c := 0;
      while c < GlyphRangeEnd
        invariant 0 <= c <= GlyphRangeEnd
        invariant LoadGlyphs(raster, characters, nextTexture, c) == target
        invariant glyphLoads == old(glyphLoads) + CodePoints(c)
        invariant vbo == old(vbo) && draws == old(draws)
      {
        LoadCharacter(raster, c);
        c := c + 1;
      }
      LoadGlyphsEntries(raster, old(characters), old(nextTexture), 0);
    }

    /** One turn of the font-loading loop: rasterises code point `c`; on
        success takes a fresh texture name and inserts the entry unless the
        key is already present. */
    method LoadCharacter(raster: Rasteriser, c: nat)
      requires c < GlyphRangeEnd
      modifies this`characters, this`nextTexture, this`glyphLoads
      ensures FontLoad(characters, nextTexture) == LoadGlyph(raster, old(characters), old(nextTexture), c)
      ensures glyphLoads == old(glyphLoads) + [c]
    {
      glyphLoads := glyphLoads + [c];
      match raster(PixelHeight, c) {
        case None =>
        case Some(g) =>
          var texture := nextTexture;
          nextTexture := nextTexture + 1;
          if c !in characters {
            characters := characters[c := MakeCharacter(texture, g)];
          }
      }
    }

    /** Gives the vertex buffer storage for exactly one quad. */
    method InitBuffers()
      requires Valid()
      modifies this
      ensures Valid() && fresh(vbo) && vbo.Length == QuadFloatCount
      ensures characters == old(characters) && nextTexture == old(nextTexture)
      ensures glyphLoads == old(glyphLoads) && draws == old(draws)
    {
      vbo := new real[QuadFloatCount];
    }

    /** One glyph's turn: binds its texture, overwrites the whole buffer with
        its quad, and issues one draw of those 6 vertices. */
    method DrawGlyph(ch: Character, pen: real, y: real, scale: real)
      requires vbo.Length == QuadFloatCount
      modifies vbo, this`draws
      ensures vbo[..] == Flatten(Quad(pen, y, scale, ch))
      ensures draws == old(draws) + [GlyphDraw(ch, pen, y, scale)]
    {
      var quad := Quad(pen, y, scale, ch);
      var floats := Flatten(quad);
      forall k | 0 <= k < QuadFloatCount {
        vbo[k] := floats[k];
      }
      assert vbo[..] == floats;
      draws := draws + [DrawCall(ch.textureId, 0, QuadVertexCount, quad)];
    }

    /** One turn of the render loop: reads the entry of `c` (inserting the
        zero entry when it is missing), draws its quad at the pen, and
        returns the pen moved right by (advance >> 6) * scale. */
    method RenderGlyph(c: CChar, pen: real, y: real, scale: real) returns (next: real)
      requires Valid() && vbo.Length == QuadFloatCount
      modifies this`characters, vbo, this`draws
      ensures Valid()
      ensures characters == Touch(old(characters), c)
      ensures draws == old(draws) + [GlyphDraw(LookupOrZero(old(characters), c), pen, y, scale)]
      ensures vbo[..] == Flatten(draws[|draws| - 1].vertices)
      ensures next == pen + Scaled(AdvancePixels(LookupOrZero(old(characters), c)), scale)
    {
      if c !in characters {
        characters := characters[c := ZeroCharacter];
      }
      var ch := characters[c];
      DrawGlyph(ch, pen, y, scale);
      next := pen + Scaled(AdvancePixels(ch), scale);
    }

    /** Draws `text` from pen (x, y): sets the colour uniform once, then
        draws the characters. `penX` is where the pen ends up. */
    method RenderText(shader: ShaderProgram, text: seq<CChar>, x: real, y: real, scale: real, color: Vec3)
      returns (ghost penX: real)
      requires Valid() && vbo.Length == QuadFloatCount
      modifies this, vbo, shader
      ensures Valid()
      ensures vbo == old(vbo) && nextTexture == old(nextTexture) && glyphLoads == old(glyphLoads)
      ensures characters == AfterLookups(old(characters), text)
      ensures draws == old(draws) + Layout(old(characters), text, x, y, scale)
      ensures text != [] ==> vbo[..] == Flatten(draws[|draws| - 1].vertices)
      ensures text == [] ==> vbo[..] == old(vbo[..])
      ensures penX == PenX(old(characters), text, |text|, x, scale)
      ensures var r := Resolve(old(shader.uniformLocations), shader.handle, shader.driverLocation, "textColor");
        && shader.handle == old(shader.handle)
        && shader.uniformLocations == r.cache
        && shader.calls == old(shader.calls)
             + (if r.queried then [QueryLocation(shader.handle, "textColor")] else [])
             + [Uniform(r.location, Vector3(color))]
    {
      shader.SetUniform("textColor", Vector3(color));
      penX := DrawString(text, x, y, scale);
    }

    /** The render loop: for each character reads its entry (inserting the
        zero entry when it is missing), overwrites the whole buffer with its
        quad, issues one draw of 6 vertices, and moves the pen right by
        (advance >> 6) * scale. `penX` is where the pen ends up. */
    method DrawString(text: seq<CChar>, x: real, y: real, scale: real) returns (ghost penX: real)
      requires Valid() && vbo.Length == QuadFloatCount
      modifies this, vbo
      ensures Valid()
      ensures vbo == old(vbo) && nextTexture == old(nextTexture) && glyphLoads == old(glyphLoads)
      ensures characters == AfterLookups(old(characters), text)
      ensures draws == old(draws) + Layout(old(characters), text, x, y, scale)
      ensures text != [] ==> vbo[..] == Flatten(draws[|draws| - 1].vertices)
      ensures text == [] ==> vbo[..] == old(vbo[..])
      ensures penX == PenX(old(characters), text, |text|, x, scale)
    {
      ghost var cache0 := characters;
      ghost var draws0 := draws;
      ghost var expected := Layout(cache0, text, x, y, scale);
      LayoutLength(cache0, text, x, y, scale);
      var pen := x;
      var i := 0;
      while i < |text|
        modifies this`characters, this`draws, vbo
        invariant 0 <= i <= |text|
        invariant Valid()
        invariant characters == AfterLookups(cache0, text[..i])
        invariant pen == PenX(cache0, text, i, x, scale)
        invariant draws == draws0 + expected[..i]
        invariant vbo[..] == if i == 0 then old(vbo[..]) else Flatten(draws[|draws| - 1].vertices)
      {
        RenderStep(cache0, text, i, x, y, scale);
        pen := RenderGlyph(text[i], pen, y, scale);
        i := i + 1;
      }
      assert text[..i] == text && expected[..i] == expected;
      penX := pen;
    }
  }
}
