/**
 The value-level part of the glyph renderer: the glyph cache entries, the
 cache the font-loading loop builds, the quad computed for one glyph, and the
 draw calls one pass over a string issues. The stateful renderer in module
 TextRenderer is proved against these functions.
 */
module GlyphLayout {

  /** A C++ `char`, taken as signed (as on x86); the cache is keyed by it. */
  type CChar = c: int | -128 <= c < 128

  datatype Option<T> = None | Some(value: T)

  /** glm::ivec2 */
  datatype IVec2 = IVec2(x: int, y: int)

  /** One glyph cache entry: its texture, bitmap size, bearing, and horizontal
      advance in 1/64 pixel as an unsigned 32-bit value. */
  datatype Character = Character(textureId: nat, size: IVec2, bearing: IVec2, advance: nat)

  /** The value-initialised entry std::map::operator[] inserts for a missing
      key: texture 0 (GL's default texture), zero size, bearing and advance. */
  const ZeroCharacter := Character(0, IVec2(0, 0), IVec2(0, 0), 0)

  /** LoadFont rasterises the code points below this bound. */
  const GlyphRangeEnd := 128
  /** The pixel height the face is set to before rasterising. */
  const PixelHeight := 48
  /** 2^32: a cast to GLuint keeps the value modulo this. */
  const GLuintModulus := 0x1_0000_0000
  const QuadVertexCount := 6
  const FloatsPerVertex := 4
  /** The dynamic vertex buffer holds exactly one quad: 6 vertices of 4 floats. */
  const QuadFloatCount := QuadVertexCount * FloatsPerVertex

  /** An integer metric converted to float and multiplied by the scale,
      taken exactly. It is written as repeated addition of the scale so that
      the solver never faces a product of an integer and a real; ScaledIsProduct
      shows it is the product. */
  function Scaled(n: int, scale: real): real
    decreases if n < 0 then -n else n
  {
    if n == 0 then 0.0
    else if n > 0 then Scaled(n - 1, scale) + scale
    else Scaled(n + 1, scale) - scale
  }

  lemma {:induction false} ScaledIsProduct(n: int, scale: real)
    ensures Scaled(n, scale) == n as real * scale
    decreases if n < 0 then -n else n
  {
    if n > 0 {
      ScaledIsProduct(n - 1, scale);
    } else if n < 0 {
      ScaledIsProduct(n + 1, scale);
    }
  }

  /** One more unit adds one scale, whatever the sign. */
  lemma ScaledSucc(n: int, scale: real)
    ensures Scaled(n + 1, scale) == Scaled(n, scale) + scale
  {
  }

  /** Scaling distributes over integer addition. */
  lemma {:induction false} ScaledAdd(a: int, b: int, scale: real)
    ensures Scaled(a + b, scale) == Scaled(a, scale) + Scaled(b, scale)
    decreases if b < 0 then -b else b
  {
    if b > 0 {
      ScaledAdd(a, b - 1, scale);
      ScaledSucc(a + b - 1, scale);
      ScaledSucc(b - 1, scale);
    } else if b < 0 {
      ScaledAdd(a, b + 1, scale);
      ScaledSucc(a + b, scale);
      ScaledSucc(b, scale);
    }
  }

  /** The glyph slot after a successful render of one code point. */
  datatype GlyphBitmap = GlyphBitmap(width: nat, rows: nat, left: int, top: int, advanceX: int)

  /** The rasteriser: given a pixel height and a code point, a bitmap, or
      None when loading the glyph fails. */
  type Rasteriser = (nat, int) -> Option<GlyphBitmap>

  /** The entry built for a rendered glyph with texture `texture`. */
  function MakeCharacter(texture: nat, g: GlyphBitmap): Character
  {
    Character(texture, IVec2(g.width, g.rows), IVec2(g.left, g.top), g.advanceX % GLuintModulus)
  }

  /** `ch` records the metrics of `g`: size (width, rows), bearing
      (left, top), and the advance as a GLuint. */
  ghost predicate Records(ch: Character, g: GlyphBitmap)
  {
    && ch.size == IVec2(g.width, g.rows)
    && ch.bearing == IVec2(g.left, g.top)
    && ch.advance < GLuintModulus
    && (ch.advance - g.advanceX) % GLuintModulus == 0
  }

  /** The cache and the texture namer after (part of) the font-loading loop. */
  datatype FontLoad = FontLoad(cache: map<CChar, Character>, nextTexture: nat)

  /** The font-loading loop from code point `c` on: each code point the
      rasteriser renders gets a fresh texture name, and its entry is inserted
      unless the key is already there (insert never overwrites). */
  function LoadGlyphs(raster: Rasteriser, cache: map<CChar, Character>, nextTexture: nat, c: nat): FontLoad
    requires c <= GlyphRangeEnd
    decreases GlyphRangeEnd - c
  {
    if c == GlyphRangeEnd then FontLoad(cache, nextTexture)
    else
      var step := LoadGlyph(raster, cache, nextTexture, c);
      LoadGlyphs(raster, step.cache, step.nextTexture, c + 1)
  }

  /** One turn of the font-loading loop, for code point `c`. */
  function LoadGlyph(raster: Rasteriser, cache: map<CChar, Character>, nextTexture: nat, c: nat): FontLoad
    requires c < GlyphRangeEnd
  {
    match raster(PixelHeight, c)
    case None => FontLoad(cache, nextTexture)
    case Some(g) =>
      FontLoad(if c in cache then cache else cache[c := MakeCharacter(nextTexture, g)], nextTexture + 1)
  }

  /** The code points 0 to n - 1, in ascending order. */
  function CodePoints(n: nat): (s: seq<int>)
    ensures |s| == n
  {
    if n == 0 then [] else CodePoints(n - 1) + [n - 1]
  }

  /** Position k of CodePoints(n) holds k: each code point below n once, in
      ascending order. */
  lemma {:induction false} CodePointsAscending(n: nat)
    ensures forall k :: 0 <= k < n ==> CodePoints(n)[k] == k
  {
    if n > 0 {
      CodePointsAscending(n - 1);
      assert CodePoints(n) == CodePoints(n - 1) + [n - 1];
    }
  }

  /** The code points from `c` up to the end of the range that rasterise. */
  ghost function Rendered(raster: Rasteriser, c: nat): set<CChar>
    requires c <= GlyphRangeEnd
  {
    set k: CChar | c <= k < GlyphRangeEnd && raster(PixelHeight, k).Some?
  }

  /** After the loop the keys are exactly the old keys plus the code points
      that rasterised; so from an empty cache, exactly the rendered code
      points, all in [0, 128). */
  lemma {:induction false} LoadGlyphsKeys(raster: Rasteriser, cache: map<CChar, Character>, nextTexture: nat, c: nat)
    requires c <= GlyphRangeEnd
    ensures LoadGlyphs(raster, cache, nextTexture, c).cache.Keys == cache.Keys + Rendered(raster, c)
    decreases GlyphRangeEnd - c
  {
    if c < GlyphRangeEnd {
      var rest := Rendered(raster, c + 1);
      match raster(PixelHeight, c)
      case None =>
        LoadGlyphsKeys(raster, cache, nextTexture, c + 1);
        assert Rendered(raster, c) == rest;
      case Some(g) =>
        var cache' := if c in cache then cache else cache[c := MakeCharacter(nextTexture, g)];
        LoadGlyphsKeys(raster, cache', nextTexture + 1, c + 1);
        assert Rendered(raster, c) == {c as CChar} + rest;
    }
  }

  /** Entries already in the cache are left as they are; every new entry
      belongs to a code point of the range that rasterised, records that
      glyph's metrics, and carries a texture name handed out by this loop. */
  lemma {:induction false} LoadGlyphsEntries(raster: Rasteriser, cache: map<CChar, Character>, nextTexture: nat, c: nat)
    requires c <= GlyphRangeEnd
    ensures var r := LoadGlyphs(raster, cache, nextTexture, c);
      && nextTexture <= r.nextTexture
      && (forall k :: k in cache ==> k in r.cache && r.cache[k] == cache[k])
      && (forall k :: k in r.cache && k !in cache ==>
            && c <= k < GlyphRangeEnd
            && raster(PixelHeight, k).Some?
            && Records(r.cache[k], raster(PixelHeight, k).value)
            && nextTexture <= r.cache[k].textureId < r.nextTexture)
    decreases GlyphRangeEnd - c
  {
    if c < GlyphRangeEnd {
      match raster(PixelHeight, c)
      case None =>
        LoadGlyphsEntries(raster, cache, nextTexture, c + 1);
      case Some(g) =>
        var cache' := if c in cache then cache else cache[c := MakeCharacter(nextTexture, g)];
        LoadGlyphsEntries(raster, cache', nextTexture + 1, c + 1);
    }
  }

  /** Two different new entries never share a texture name. */
  lemma {:induction false} LoadGlyphsTexturesDistinct(raster: Rasteriser, cache: map<CChar, Character>, nextTexture: nat, c: nat)
    requires c <= GlyphRangeEnd
    ensures var r := LoadGlyphs(raster, cache, nextTexture, c);
      forall k1, k2 :: k1 in r.cache && k2 in r.cache && k1 !in cache && k2 !in cache && k1 != k2 ==>
        r.cache[k1].textureId != r.cache[k2].textureId
    decreases GlyphRangeEnd - c
  {
    if c < GlyphRangeEnd {
      match raster(PixelHeight, c)
      case None =>
        LoadGlyphsTexturesDistinct(raster, cache, nextTexture, c + 1);
      case Some(g) =>
        var cache' := if c in cache then cache else cache[c := MakeCharacter(nextTexture, g)];
        LoadGlyphsTexturesDistinct(raster, cache', nextTexture + 1, c + 1);
        LoadGlyphsEntries(raster, cache', nextTexture + 1, c + 1);
    }
  }

  /** One vertex of the quad: position and texture coordinate. */
  datatype Vertex = Vertex(x: real, y: real, u: real, v: real)

  /** The texture coordinates of the six vertices, in the order drawn: two
      triangles sharing the top-left to bottom-right diagonal. */
  const QuadTexCoords: seq<(real, real)> := [(0.0, 0.0), (0.0, 1.0), (1.0, 1.0), (0.0, 0.0), (1.0, 1.0), (1.0, 0.0)]

  /** The quad of glyph `ch` drawn with the pen at (x, y): two triangles
      over the glyph's bitmap. Texture coordinate u is 0 on the bitmap's left
      edge and 1 on its right edge, v is 0 on its top edge and 1 on its
      bottom edge (bitmap rows are stored top down). */
  function Quad(x: real, y: real, scale: real, ch: Character): (q: seq<Vertex>)
    ensures |q| == QuadVertexCount
  {
    var xpos := x + Scaled(ch.bearing.x, scale);
    var ypos := y - Scaled(ch.size.y - ch.bearing.y, scale);
    var w := Scaled(ch.size.x, scale);
    var h := Scaled(ch.size.y, scale);
    [ Vertex(xpos, ypos + h, 0.0, 0.0),
      Vertex(xpos, ypos, 0.0, 1.0),
      Vertex(xpos + w, ypos, 1.0, 1.0),
      Vertex(xpos, ypos + h, 0.0, 0.0),
      Vertex(xpos + w, ypos, 1.0, 1.0),
      Vertex(xpos + w, ypos + h, 1.0, 0.0) ]
  }

  /** Every vertex of the quad carries its corner's texture coordinate and
      sits at that corner: left edge bearing.x * scale right of the pen, top
      edge bearing.y * scale above the baseline, spanning size * scale; the
      bottom-left corner is (xpos, ypos) as the renderer computes them. */
  lemma QuadShape(x: real, y: real, scale: real, ch: Character)
    ensures var q := Quad(x, y, scale, ch);
      forall i :: 0 <= i < |q| ==> (q[i].u, q[i].v) == QuadTexCoords[i]
    ensures var q, left, top := Quad(x, y, scale, ch), x + Scaled(ch.bearing.x, scale), y + Scaled(ch.bearing.y, scale);
      forall i :: 0 <= i < |q| ==>
        && q[i].x == (if q[i].u == 0.0 then left else left + Scaled(ch.size.x, scale))
        && q[i].y == (if q[i].v == 0.0 then top else top - Scaled(ch.size.y, scale))
    ensures Quad(x, y, scale, ch)[1].x == x + Scaled(ch.bearing.x, scale)
    ensures Quad(x, y, scale, ch)[1].y == y - Scaled(ch.size.y - ch.bearing.y, scale)
  {
    ScaledAdd(ch.size.y - ch.bearing.y, ch.bearing.y, scale);
  }

  /** The vertices as the row-major float array uploaded to the buffer. */
  function Flatten(q: seq<Vertex>): (fs: seq<real>)
    ensures |fs| == FloatsPerVertex * |q|
  {
    if q == [] then [] else [q[0].x, q[0].y, q[0].u, q[0].v] + Flatten(q[1..])
  }

  /** Vertex i occupies floats 4i to 4i+3 of the upload: position, then
      texture coordinate. */
  lemma {:induction false} FlattenRows(q: seq<Vertex>)
    ensures forall i :: 0 <= i < |q| ==>
      Flatten(q)[FloatsPerVertex * i..FloatsPerVertex * i + FloatsPerVertex] == [q[i].x, q[i].y, q[i].u, q[i].v]
  {
    if q != [] {
      FlattenRows(q[1..]);
      var rest := Flatten(q[1..]);
      assert Flatten(q) == [q[0].x, q[0].y, q[0].u, q[0].v] + rest;
      forall i | 1 <= i < |q|
        ensures Flatten(q)[FloatsPerVertex * i..FloatsPerVertex * i + FloatsPerVertex] == [q[i].x, q[i].y, q[i].u, q[i].v]
      {
        assert q[1..][i - 1] == q[i];
        assert Flatten(q)[FloatsPerVertex * i..FloatsPerVertex * i + FloatsPerVertex]
            == rest[FloatsPerVertex * (i - 1)..FloatsPerVertex * (i - 1) + FloatsPerVertex];
      }
    }
  }

  /** One draw call: the texture bound, the range of vertices drawn as
      triangles, and the vertices the buffer holds when it is issued. */
  datatype DrawCall = DrawCall(texture: nat, first: nat, count: nat, vertices: seq<Vertex>)

  /** The draw issued for glyph `ch` with the pen at (penX, y). */
  function GlyphDraw(ch: Character, penX: real, y: real, scale: real): DrawCall
  {
    DrawCall(ch.textureId, 0, QuadVertexCount, Quad(penX, y, scale, ch))
  }

  /** What the render loop reads for `c`: the entry, or the zero entry that
      operator[] inserts when there is none. */
  function LookupOrZero(cache: map<CChar, Character>, c: CChar): Character
  {
    if c in cache then cache[c] else ZeroCharacter
  }

  /** The pen step of one glyph in whole pixels before scaling: advance >> 6. */
  function AdvancePixels(ch: Character): nat
  {
    ch.advance / 64
  }

  /** The sum of (advance >> 6) over the characters of `text`. */
  function AdvanceSum(cache: map<CChar, Character>, text: seq<CChar>): nat
    decreases |text|
  {
    if text == [] then 0 else AdvancePixels(LookupOrZero(cache, text[0])) + AdvanceSum(cache, text[1..])
  }

  /** The pen's x once the first `i` characters of `text` are drawn from `x`. */
  function PenX(cache: map<CChar, Character>, text: seq<CChar>, i: nat, x: real, scale: real): real
    requires i <= |text|
  {
    x + Scaled(AdvanceSum(cache, text[..i]), scale)
  }

  /** The draws one render of `text` issues from pen (x, y): one per
      character, the pen moving right by (advance >> 6) * scale each time. */
  function Layout(cache: map<CChar, Character>, text: seq<CChar>, x: real, y: real, scale: real): seq<DrawCall>
    decreases |text|
  {
    if text == [] then []
    else
      var ch := LookupOrZero(cache, text[0]);
      [GlyphDraw(ch, x, y, scale)] + Layout(cache, text[1..], x + Scaled(AdvancePixels(ch), scale), y, scale)
  }

  /** operator[] on one character: inserts the zero entry if the key is missing. */
  function Touch(cache: map<CChar, Character>, c: CChar): map<CChar, Character>
  {
    if c in cache then cache else cache[c := ZeroCharacter]
  }

  /** The cache after operator[] has been applied to each character of `text`. */
  function AfterLookups(cache: map<CChar, Character>, text: seq<CChar>): map<CChar, Character>
    decreases |text|
  {
    if text == [] then cache else AfterLookups(Touch(cache, text[0]), text[1..])
  }

  /** Looking up one more character after a run of lookups. */
  lemma {:induction false} AfterLookupsAppend(cache: map<CChar, Character>, text: seq<CChar>, c: CChar)
    ensures AfterLookups(cache, text + [c]) == Touch(AfterLookups(cache, text), c)
    decreases |text|
  {
    if text != [] {
      assert (text + [c])[1..] == text[1..] + [c];
      AfterLookupsAppend(Touch(cache, text[0]), text[1..], c);
    }
  }

  /** A run of lookups changes what no later lookup reads. */
  lemma {:induction false} AfterLookupsRead(cache: map<CChar, Character>, text: seq<CChar>, c: CChar)
    ensures LookupOrZero(AfterLookups(cache, text), c) == LookupOrZero(cache, c)
    decreases |text|
  {
    if text != [] {
      AfterLookupsRead(Touch(cache, text[0]), text[1..], c);
    }
  }

  /** The characters of `text` that have an entry in `cache`, in order. */
  function Present(cache: map<CChar, Character>, text: seq<CChar>): seq<CChar>
    decreases |text|
  {
    if text == [] then []
    else if text[0] in cache then [text[0]] + Present(cache, text[1..])
    else Present(cache, text[1..])
  }

  /** The advance sum of a string is that of its prefix plus the last character's. */
  lemma {:induction false} AdvanceSumAppend(cache: map<CChar, Character>, text: seq<CChar>, c: CChar)
    ensures AdvanceSum(cache, text + [c]) == AdvanceSum(cache, text) + AdvancePixels(LookupOrZero(cache, c))
    decreases |text|
  {
    if text != [] {
      assert (text + [c])[1..] == text[1..] + [c];
      AdvanceSumAppend(cache, text[1..], c);
    }
  }

  /** Drawing character i moves the pen right by its (advance >> 6) * scale. */
  lemma PenXStep(cache: map<CChar, Character>, text: seq<CChar>, i: nat, x: real, scale: real)
    requires i < |text|
    ensures PenX(cache, text, i + 1, x, scale)
         == PenX(cache, text, i, x, scale) + Scaled(AdvancePixels(LookupOrZero(cache, text[i])), scale)
  {
    assert text[..i + 1] == text[..i] + [text[i]];
    AdvanceSumAppend(cache, text[..i], text[i]);
    ScaledAdd(AdvanceSum(cache, text[..i]), AdvancePixels(LookupOrZero(cache, text[i])), scale);
  }

  /** Drawing the first character moves the pen to where the rest of the
      string starts. */
  lemma PenXShift(cache: map<CChar, Character>, text: seq<CChar>, i: nat, x: real, scale: real)
    requires 0 < i <= |text|
    ensures PenX(cache, text[1..], i - 1, x + Scaled(AdvancePixels(LookupOrZero(cache, text[0])), scale), scale)
         == PenX(cache, text, i, x, scale)
  {
    assert text[..i][0] == text[0];
    assert text[..i][1..] == text[1..][..i - 1];
    ScaledAdd(AdvancePixels(LookupOrZero(cache, text[0])), AdvanceSum(cache, text[1..][..i - 1]), scale);
  }

  /** Pen additivity: the i-th draw is the quad of the i-th character with
      the pen at x + scale * (sum of advance >> 6 over the characters before
      it), always on the same baseline y; there is exactly one draw per
      character, whether or not it has an entry. */
  lemma {:induction false} LayoutPen(cache: map<CChar, Character>, text: seq<CChar>, x: real, y: real, scale: real)
    ensures |Layout(cache, text, x, y, scale)| == |text|
    ensures forall i :: 0 <= i < |text| ==>
      Layout(cache, text, x, y, scale)[i] == GlyphDraw(LookupOrZero(cache, text[i]), PenX(cache, text, i, x, scale), y, scale)
    decreases |text|
  {
    if text != [] {
      var ch := LookupOrZero(cache, text[0]);
      var x' := x + Scaled(AdvancePixels(ch), scale);
      var whole := Layout(cache, text, x, y, scale);
      var rest := Layout(cache, text[1..], x', y, scale);
      assert whole == [GlyphDraw(ch, x, y, scale)] + rest;
      LayoutPen(cache, text[1..], x', y, scale);
      assert text[..0] == [];
      assert PenX(cache, text, 0, x, scale) == x;
      forall i | 1 <= i < |text|
        ensures whole[i] == GlyphDraw(LookupOrZero(cache, text[i]), PenX(cache, text, i, x, scale), y, scale)
      {
        PenXShift(cache, text, i, x, scale);
        assert text[1..][i - 1] == text[i];
        assert whole[i] == rest[i - 1];
      }
    }
  }

  /** A prefix one element longer. */
  lemma PrefixStep<T>(s: seq<T>, i: nat)
    requires i < |s|
    ensures s[..i + 1] == s[..i] + [s[i]]
  {
  }

  /** There is exactly one draw per character. */
  lemma LayoutLength(cache: map<CChar, Character>, text: seq<CChar>, x: real, y: real, scale: real)
    ensures |Layout(cache, text, x, y, scale)| == |text|
  {
    LayoutPen(cache, text, x, y, scale);
  }

  /** What one turn of the render loop adds, for character i of `text`:
      one lookup, one draw at PenX(i), and the pen step to PenX(i + 1). */
  lemma RenderStep(cache: map<CChar, Character>, text: seq<CChar>, i: nat, x: real, y: real, scale: real)
    requires i < |text|
    ensures AfterLookups(cache, text[..i + 1]) == Touch(AfterLookups(cache, text[..i]), text[i])
    ensures LookupOrZero(AfterLookups(cache, text[..i]), text[i]) == LookupOrZero(cache, text[i])
    ensures |Layout(cache, text, x, y, scale)| == |text|
    ensures Layout(cache, text, x, y, scale)[..i + 1]
         == Layout(cache, text, x, y, scale)[..i] + [GlyphDraw(LookupOrZero(cache, text[i]), PenX(cache, text, i, x, scale), y, scale)]
    ensures PenX(cache, text, i + 1, x, scale)
         == PenX(cache, text, i, x, scale) + Scaled(AdvancePixels(LookupOrZero(cache, text[i])), scale)
  {
    PrefixStep(text, i);
    AfterLookupsAppend(cache, text[..i], text[i]);
    AfterLookupsRead(cache, text[..i], text[i]);
    LayoutPen(cache, text, x, y, scale);
    PrefixStep(Layout(cache, text, x, y, scale), i);
    PenXStep(cache, text, i, x, scale);
  }

  /** A character without an entry still gets a draw: with texture 0, a
      quad whose six vertices all sit at the pen, and no pen movement. */
  lemma MissingGlyphDraw(cache: map<CChar, Character>, text: seq<CChar>, x: real, y: real, scale: real, i: nat)
    requires i < |text| && text[i] !in cache
    ensures i < |Layout(cache, text, x, y, scale)|
    ensures Layout(cache, text, x, y, scale)[i] == GlyphDraw(ZeroCharacter, PenX(cache, text, i, x, scale), y, scale)
    ensures forall k :: 0 <= k < QuadVertexCount ==>
      Quad(PenX(cache, text, i, x, scale), y, scale, ZeroCharacter)[k].x == PenX(cache, text, i, x, scale)
      && Quad(PenX(cache, text, i, x, scale), y, scale, ZeroCharacter)[k].y == y
    ensures PenX(cache, text, i + 1, x, scale) == PenX(cache, text, i, x, scale)
  {
    LayoutPen(cache, text, x, y, scale);
    assert LookupOrZero(cache, text[i]) == ZeroCharacter;
    PenXStep(cache, text, i, x, scale);
  }

  /** Characters without an entry advance the pen by nothing: the pen ends
      where it would if they were removed from the string. */
  lemma {:induction false} MissingGlyphsAdvanceNothing(cache: map<CChar, Character>, text: seq<CChar>)
    ensures AdvanceSum(cache, text) == AdvanceSum(cache, Present(cache, text))
    decreases |text|
  {
    if text != [] {
      MissingGlyphsAdvanceNothing(cache, text[1..]);
      if text[0] in cache {
        assert ([text[0]] + Present(cache, text[1..]))[1..] == Present(cache, text[1..]);
      }
    }
  }

  /** The lookups of a render grow the cache by zero entries for the missing
      characters and nothing else: the old entries stay. */
  lemma {:induction false} AfterLookupsGrowth(cache: map<CChar, Character>, text: seq<CChar>)
    ensures AfterLookups(cache, text).Keys == cache.Keys + set c | c in text
    ensures forall c :: c in cache ==> AfterLookups(cache, text)[c] == cache[c]
    ensures forall c :: c in AfterLookups(cache, text) && c !in cache ==> AfterLookups(cache, text)[c] == ZeroCharacter
    decreases |text|
  {
    if text != [] {
      AfterLookupsGrowth(Touch(cache, text[0]), text[1..]);
      assert text == [text[0]] + text[1..];
      assert (set c | c in text) == {text[0]} + set c | c in text[1..];
    }
  }

  /** Rendering the same string again after a render issues the same draws:
      the entries the first render inserted change no lookup. */
  lemma {:induction false} LayoutRepeatable(cache: map<CChar, Character>, earlier: seq<CChar>, text: seq<CChar>, x: real, y: real, scale: real)
    ensures Layout(AfterLookups(cache, earlier), text, x, y, scale) == Layout(cache, text, x, y, scale)
    decreases |text|
  {
    if text != [] {
      AfterLookupsRead(cache, earlier, text[0]);
      var ch := LookupOrZero(cache, text[0]);
      LayoutRepeatable(cache, earlier, text[1..], x + Scaled(AdvancePixels(ch), scale), y, scale);
    }
  }
}
