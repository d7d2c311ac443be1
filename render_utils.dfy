/** The exact integer parts of the overlay's static drawing helpers: packed
    ARGB channel extraction, the corner normalisation and vertices of `fill`,
    the outline bars of `drawHollowRect`, the clip-box conversion of
    `enableScissor`, the channel permutation of `getMcColor` and the lazily
    filled texture-size cache of `drawTexturedRectangle`.

    Only the vertices `fill` emits (taken before the position matrix), the
    current clip box, the bound texture and the `drawTexture` calls are
    recorded, on a `Renderer` object that also holds the static texture-size
    map. The other host graphics calls are not modelled. */
module RenderUtils {
  import opened Wrappers

  // ---------------------------------------------------------------------
  // Java ints and packed colours
  // ---------------------------------------------------------------------

  /** A Java `int`, as its 32-bit two's-complement bit pattern. */
  type JInt = bv32

  /** The sign bit of a Java `int` is set. */
  predicate IsNegative(x: JInt) {
    (x & 0x8000_0000) != 0
  }

  /** Java's `x >> n`: an arithmetic shift, which copies the sign bit into
      the `n` vacated high positions. */
  function Sar(x: JInt, n: nat): (r: JInt)
    requires n < 32
  {
    if IsNegative(x) then (x >> n) | !(0xFFFF_FFFF >> n) else x >> n
  }

  /** `color >> 24 & 0xFF` (RenderUtils.java lines 79, 100, 163). */
  function Alpha(color: JInt): (a: JInt)
    ensures a <= 0xFF && !IsNegative(a)
    ensures (a << 24) == (color & 0xFF00_0000)
  {
    Sar(color, 24) & 0xFF
  }

  /** `color >> 16 & 0xFF` (lines 80, 101, 164). */
  function Red(color: JInt): (r: JInt)
    ensures r <= 0xFF && !IsNegative(r)
    ensures (r << 16) == (color & 0x00FF_0000)
  {
    Sar(color, 16) & 0xFF
  }

  /** `color >> 8 & 0xFF` (lines 81, 102, 165). */
  function Green(color: JInt): (g: JInt)
    ensures g <= 0xFF && !IsNegative(g)
    ensures (g << 8) == (color & 0x0000_FF00)
  {
    Sar(color, 8) & 0xFF
  }

  /** `color & 0xFF` (lines 82, 103, 166). */
  function Blue(color: JInt): (b: JInt)
    ensures b <= 0xFF && !IsNegative(b)
    ensures ((color & 0xFFFF_FF00) | b) == color
  {
    color & 0xFF
  }

  /** `(a << 24) | (r << 16) | (g << 8) | b`: four byte values packed into
      one Java `int`, the layout the channel extraction reads back. */
  function Pack(a: JInt, r: JInt, g: JInt, b: JInt): (c: JInt)
    requires a <= 0xFF && r <= 0xFF && g <= 0xFF && b <= 0xFF
    ensures Alpha(c) == a && Red(c) == r && Green(c) == g && Blue(c) == b
    ensures IsNegative(c) <==> a >= 0x80
  {
    (a << 24) | (r << 16) | (g << 8) | b
  }

  /** The other direction of the round trip: every Java `int`, negative ones
      included, is the packing of its four extracted channels. */
  lemma PackChannels(c: JInt)
    ensures Pack(Alpha(c), Red(c), Green(c), Blue(c)) == c
  {
  }

  // ---------------------------------------------------------------------
  // getMcColor
  // ---------------------------------------------------------------------

  /** A `java.awt.Color` by its four components. */
  datatype AwtColor = AwtColor(red: int, green: int, blue: int, alpha: int)

  predicate IsByte(v: int) {
    0 <= v < 256
  }

  predicate ValidColor(c: AwtColor) {
    IsByte(c.red) && IsByte(c.green) && IsByte(c.blue) && IsByte(c.alpha)
  }

  /** `new Color(r, g, b)`: an opaque colour; the constructor rejects a
      component outside 0..255 by throwing, modelled as `None`. */
  function NewColor(r: int, g: int, b: int): Option<AwtColor> {
    if IsByte(r) && IsByte(g) && IsByte(b) then Some(AwtColor(r, g, b, 255)) else None
  }

  /** `Color.getRGB()` of a valid colour: its components packed as ARGB. */
  function Rgb(c: AwtColor): JInt
    requires ValidColor(c)
  {
    Pack(c.alpha as JInt, c.red as JInt, c.green as JInt, c.blue as JInt)
  }

  /** `getMcColor(r, b, g)` (lines 260-262), which builds `new Color(b, g, r)`:
      the packed colour's red channel comes from the second argument, its
      green channel from the third and its blue channel from the first. */
  function McColor(r: int, b: int, g: int): (c: Option<AwtColor>)
    ensures c.Some? <==> IsByte(r) && IsByte(b) && IsByte(g)
    ensures c.Some? ==> ValidColor(c.value)
    ensures c.Some? ==> Red(Rgb(c.value)) == b as JInt && Green(Rgb(c.value)) == g as JInt
    ensures c.Some? ==> Blue(Rgb(c.value)) == r as JInt && Alpha(Rgb(c.value)) == 0xFF
    ensures c.Some? ==> IsNegative(Rgb(c.value))
  {
    NewColor(b, g, r)
  }

  // ---------------------------------------------------------------------
  // fill: corner normalisation and vertices
  // ---------------------------------------------------------------------

  /** The corner coordinates `fill` takes, in its parameter order. */
  datatype Corners = Corners(x1: real, y1: real, x2: real, y2: real)

  function Min(a: real, b: real): real {
    if a <= b then a else b
  }

  function Max(a: real, b: real): real {
    if a <= b then b else a
  }

  /** The corners after `fill`'s two compare-and-swap steps (lines 69-78):
      the larger coordinate of each axis ends up in `x1`, `y1`. */
  function Normalize(q: Corners): (n: Corners)
    ensures n.x1 >= n.x2 && n.y1 >= n.y2
    ensures multiset{n.x1, n.x2} == multiset{q.x1, q.x2}
    ensures multiset{n.y1, n.y2} == multiset{q.y1, q.y2}
    ensures n == Corners(Max(q.x1, q.x2), Max(q.y1, q.y2), Min(q.x1, q.x2), Min(q.y1, q.y2))
  {
    var (x1, x2) := if q.x1 < q.x2 then (q.x2, q.x1) else (q.x1, q.x2);
    var (y1, y2) := if q.y1 < q.y2 then (q.y2, q.y1) else (q.y1, q.y2);
    Corners(x1, y1, x2, y2)
  }

  /** Corners that are already ordered are left as they are. */
  lemma NormalizeOrderedUnchanged(q: Corners)
    requires q.x1 >= q.x2 && q.y1 >= q.y2
    ensures Normalize(q) == q
  {
  }

  /** Normalising twice is normalising once. */
  lemma NormalizeIdempotent(q: Corners)
    ensures Normalize(Normalize(q)) == Normalize(q)
  {
    NormalizeOrderedUnchanged(Normalize(q));
  }

  /** The colour arguments of one `.color(r, g, b, a)` call, as byte values. */
  datatype Rgba = Rgba(r: JInt, g: JInt, b: JInt, a: JInt)

  /** The channels of a packed colour in the r, g, b, a order `fill` passes
      them to the vertex; packing them again gives the colour back. */
  function ChannelsOf(color: JInt): (c: Rgba)
    ensures c.r <= 0xFF && c.g <= 0xFF && c.b <= 0xFF && c.a <= 0xFF
    ensures Pack(c.a, c.r, c.g, c.b) == color
  {
    PackChannels(color);
    Rgba(Red(color), Green(color), Blue(color), Alpha(color))
  }

  /** One `vertex(x, y, 0).color(...)` record handed to the buffer builder. */
  datatype Vertex = Vertex(x: real, y: real, color: Rgba)

  /** The four vertices `fill` emits (lines 88-91): corners (x1, y2),
      (x2, y2), (x2, y1), (x1, y1) of the normalised rectangle, each
      coloured with the channels of `color` in r, g, b, a order. */
  function FillVertices(q: Corners, color: JInt): (vs: seq<Vertex>)
    ensures |vs| == 4
    ensures forall v <- vs :: v.color == ChannelsOf(color)
    ensures vs[0].x == Max(q.x1, q.x2) && vs[0].y == Min(q.y1, q.y2)
    ensures vs[1].x == Min(q.x1, q.x2) && vs[1].y == Min(q.y1, q.y2)
    ensures vs[2].x == Min(q.x1, q.x2) && vs[2].y == Max(q.y1, q.y2)
    ensures vs[3].x == Max(q.x1, q.x2) && vs[3].y == Max(q.y1, q.y2)
  {
    var n := Normalize(q);
    var c := ChannelsOf(color);
    [Vertex(n.x1, n.y2, c), Vertex(n.x2, n.y2, c), Vertex(n.x2, n.y1, c), Vertex(n.x1, n.y1, c)]
  }

  // ---------------------------------------------------------------------
  // drawHollowRect
  // ---------------------------------------------------------------------

  /** The corners of the four `fill` calls of `drawHollowRect`
      (lines 188-192), as passed: left, right, top and bottom bar. */
  function HollowBars(x: int, y: int, width: int, height: int, thickness: int): (bars: seq<Corners>)
    ensures |bars| == 4
  {
    var t := thickness;
    [ Corners(x as real, (y - t) as real, (x - t) as real, (y + height + t) as real),
      Corners((x + width) as real, (y - t) as real, (x + width + t) as real, (y + height + t) as real),
      Corners(x as real, y as real, (x + width) as real, (y - t) as real),
      Corners(x as real, (y + height) as real, (x + width) as real, (y + height + t) as real) ]
  }

  /** The closed rectangle spanned by `q` contains the point (px, py). */
  predicate Covers(q: Corners, px: real, py: real) {
    Min(q.x1, q.x2) <= px <= Max(q.x1, q.x2) && Min(q.y1, q.y2) <= py <= Max(q.y1, q.y2)
  }

  /** The closed rectangle [left, right] x [top, bottom], as normalised corners. */
  function Span(left: real, top: real, right: real, bottom: real): Corners {
    Corners(right, bottom, left, top)
  }

  /** For a non-negative thickness t the bars are [x-t, x] x [y-t, y+h+t],
      [x+w, x+w+t] x [y-t, y+h+t], [x, x+w] x [y-t, y] and
      [x, x+w] x [y+h, y+h+t]; a span whose ends depend on the sign of the
      width or height is written with `Min` and `Max`, which give the plain
      bounds when w >= 0 and h >= 0. */
  lemma HollowBarSpans(x: int, y: int, w: int, h: int, t: int)
    requires t >= 0
    ensures Normalize(HollowBars(x, y, w, h, t)[0])
         == Span((x - t) as real, Min((y - t) as real, (y + h + t) as real),
                 x as real, Max((y - t) as real, (y + h + t) as real))
    ensures Normalize(HollowBars(x, y, w, h, t)[1])
         == Span((x + w) as real, Min((y - t) as real, (y + h + t) as real),
                 (x + w + t) as real, Max((y - t) as real, (y + h + t) as real))
    ensures Normalize(HollowBars(x, y, w, h, t)[2])
         == Span(Min(x as real, (x + w) as real), (y - t) as real,
                 Max(x as real, (x + w) as real), y as real)
    ensures Normalize(HollowBars(x, y, w, h, t)[3])
         == Span(Min(x as real, (x + w) as real), (y + h) as real,
                 Max(x as real, (x + w) as real), (y + h + t) as real)
  {
    var bars := HollowBars(x, y, w, h, t);
    var yLo, yHi := Min((y - t) as real, (y + h + t) as real), Max((y - t) as real, (y + h + t) as real);
    var xLo, xHi := Min(x as real, (x + w) as real), Max(x as real, (x + w) as real);
    NormalizeSpan(bars[0], (x - t) as real, yLo, x as real, yHi);
    NormalizeSpan(bars[1], (x + w) as real, yLo, (x + w + t) as real, yHi);
    NormalizeSpan(bars[2], xLo, (y - t) as real, xHi, y as real);
    NormalizeSpan(bars[3], xLo, (y + h) as real, xHi, (y + h + t) as real);
  }

  /** Corners holding the bounds of [left, right] x [top, bottom], in either
      order on each axis, normalise to that span. */
  lemma NormalizeSpan(q: Corners, left: real, top: real, right: real, bottom: real)
    requires left <= right && top <= bottom
    requires {q.x1, q.x2} == {left, right}
    requires {q.y1, q.y2} == {top, bottom}
    ensures Normalize(q) == Span(left, top, right, bottom)
  {
  }

  /** No bar enters the open interior (x, x+w) x (y, y+h) of the outlined
      rectangle, whatever its size, as long as the thickness is not negative. */
  lemma HollowBarsMissInterior(x: int, y: int, w: int, h: int, t: int, px: real, py: real)
    requires t >= 0
    requires x as real < px < (x + w) as real && y as real < py < (y + h) as real
    ensures forall i | 0 <= i < 4 :: !Covers(HollowBars(x, y, w, h, t)[i], px, py)
  {
  }

  // ---------------------------------------------------------------------
  // enableScissor(int, int, int, int)
  // ---------------------------------------------------------------------

  /** The clip box handed to the host: origin, width and height in physical pixels. */
  datatype ScissorBox = ScissorBox(x: int, y: int, width: int, height: int)

  /** The box `enableScissor` computes (lines 41-46) for the logical
      rectangle (x1, y1)-(x2, y2), an integer scale factor and the scaled
      window height: scaled by `scale`, with the y axis flipped. */
  function ScissorFor(x1: int, y1: int, x2: int, y2: int, scale: int, scaledHeight: int): (b: ScissorBox)
    ensures b.x + b.width == x2 * scale
    ensures b.y + b.height == (scaledHeight - y1) * scale
  {
    ScissorBox(x1 * scale, (scaledHeight - y2) * scale, (x2 - x1) * scale, (y2 - y1) * scale)
  }

  /** With a positive scale factor the box has non-negative width exactly
      when x1 <= x2 and non-negative height exactly when y1 <= y2. */
  lemma ScissorExtentsNonNegative(x1: int, y1: int, x2: int, y2: int, scale: int, scaledHeight: int)
    requires scale > 0
    ensures ScissorFor(x1, y1, x2, y2, scale, scaledHeight).width >= 0 <==> x1 <= x2
    ensures ScissorFor(x1, y1, x2, y2, scale, scaledHeight).height >= 0 <==> y1 <= y2
  {
  }

  // ---------------------------------------------------------------------
  // drawTexturedRectangle: the texture-size cache
  // ---------------------------------------------------------------------

  /** A texture identifier (the path under the client's asset namespace). */
  type Id = string

  /** An image's natural width and height (the cached `IntIntPair`). */
  datatype Size = Size(width: int, height: int)

  /** `images.computeIfAbsent(id, loader)` (lines 238-245), where
      `loadResult` is what reading the image yields: the map afterwards and
      the pair returned. A present entry is returned without loading; a
      successful load is stored; a failed load stores nothing. */
  function ComputeIfAbsent(images: map<Id, Size>, id: Id, loadResult: Option<Size>): (r: (map<Id, Size>, Option<Size>))
    ensures forall k | k in images :: k in r.0 && r.0[k] == images[k]
    ensures r.0.Keys <= images.Keys + {id}
    ensures r.1.Some? <==> id in r.0
    ensures r.1.Some? ==> r.0[id] == r.1.value
    ensures id in images ==> r.1 == Some(images[id])
    ensures id !in images ==> r.1 == loadResult
  {
    if id in images then (images, Some(images[id]))
    else if loadResult.Some? then (images[id := loadResult.value], loadResult)
    else (images, None)
  }

  /** On a hit the loader's outcome is irrelevant: the result is the same
      whatever reading the image would have yielded. */
  lemma CacheHitIgnoresLoader(images: map<Id, Size>, id: Id, l1: Option<Size>, l2: Option<Size>)
    requires id in images
    ensures ComputeIfAbsent(images, id, l1) == ComputeIfAbsent(images, id, l2)
  {
  }

  /** Once a lookup has succeeded, every later lookup of the same id returns
      the same pair and leaves the map as it is. */
  lemma CacheLookupStable(images: map<Id, Size>, id: Id, l1: Option<Size>, l2: Option<Size>)
    requires ComputeIfAbsent(images, id, l1).1.Some?
    ensures var (m, p) := ComputeIfAbsent(images, id, l1);
      ComputeIfAbsent(m, id, l2) == (m, p)
  {
  }

  /** Java's `(int) v` for a value within `int` range: truncation toward zero. */
  function TruncToInt(v: real): (r: int)
    ensures 0.0 <= v ==> r as real <= v < r as real + 1.0
    ensures v < 0.0 ==> r as real - 1.0 < v <= r as real
  {
    if v >= 0.0 then v.Floor else -((-v).Floor)
  }

  /** One `DrawableHelper.drawTexture(matrices, x, y, u, v, width, height,
      textureWidth, textureHeight)` call. */
  datatype TexturedQuad = TexturedQuad(x: int, y: int, u: real, v: real, width: int, height: int,
                                       textureWidth: int, textureHeight: int)

  // ---------------------------------------------------------------------
  // The drawing state: the host's buffers as logs, and the static cache
  // ---------------------------------------------------------------------

  class Renderer {
    /** Every vertex handed to the buffer builder, in order. */
    var vertices: seq<Vertex>
    /** The clip box currently enabled on the host, if any. */
    var scissor: Option<ScissorBox>
    /** The static `images` map: texture id to natural size. */
    var images: map<Id, Size>
    /** The ids whose image was read, in order (each cache miss reads once). */
    var imageLoads: seq<Id>
    /** The texture last bound by `setShaderTexture`. */
    var boundTexture: Option<Id>
    /** Every textured quad drawn, in order. */
    var texturedQuads: seq<TexturedQuad>

    constructor ()
      ensures vertices == [] && scissor == None && images == map[]
      ensures imageLoads == [] && boundTexture == None && texturedQuads == []
    {
      vertices, scissor, images := [], None, map[];
      imageLoads, boundTexture, texturedQuads := [], None, [];
    }

    /** `enableScissor(int x1, int y1, int x2, int y2)` with the window's
        truncated scale factor and scaled height passed in. */
    method EnableScissor(x1: int, y1: int, x2: int, y2: int, scale: int, scaledHeight: int)
      modifies this`scissor
      ensures scissor == Some(ScissorFor(x1, y1, x2, y2, scale, scaledHeight))
    {
      scissor := Some(ScissorFor(x1, y1, x2, y2, scale, scaledHeight));
    }

    /** `disableScissor()`. */
    method DisableScissor()
      modifies this`scissor
      ensures scissor == None
    {
      scissor := None;
    }

    /** `fill(matrices, x1, y1, x2, y2, color)` (lines 66-94): orders the
        corners in place, then emits one quad. */
    method Fill(x1: real, y1: real, x2: real, y2: real, color: JInt)
      modifies this`vertices
      ensures vertices == old(vertices) + FillVertices(Corners(x1, y1, x2, y2), color)
    {
      var cx1, cy1, cx2, cy2 := x1, y1, x2, y2;
      var i: real;
      if cx1 < cx2 {
        i := cx1;
        cx1 := cx2;
        cx2 := i;
      }
      if cy1 < cy2 {
        i := cy1;
        cy1 := cy2;
        cy2 := i;
      }
      var f := Alpha(color);
      var g := Red(color);
      var h := Green(color);
      var j := Blue(color);
      vertices := vertices + [Vertex(cx1, cy2, Rgba(g, h, j, f)), Vertex(cx2, cy2, Rgba(g, h, j, f)),
                              Vertex(cx2, cy1, Rgba(g, h, j, f)), Vertex(cx1, cy1, Rgba(g, h, j, f))];
    }

    /** `drawHollowRect(matrices, x, y, width, height, color, thickness)`
        (lines 187-193): four filled bars, left, right, top, bottom. */
    method DrawHollowRect(x: int, y: int, width: int, height: int, color: JInt, thickness: int)
      modifies this`vertices
      ensures var bars := HollowBars(x, y, width, height, thickness);
        vertices == old(vertices) + FillVertices(bars[0], color) + FillVertices(bars[1], color)
                                  + FillVertices(bars[2], color) + FillVertices(bars[3], color)
    {
      var t := thickness;
      Fill(x as real, (y - t) as real, (x - t) as real, (y + height + t) as real, color);
      Fill((x + width) as real, (y - t) as real, (x + width + t) as real, (y + height + t) as real, color);
      Fill(x as real, y as real, (x + width) as real, (y - t) as real, color);
      Fill(x as real, (y + height) as real, (x + width) as real, (y + height + t) as real, color);
    }

    /** `drawTexturedRectangle(matrices, x, y, path)` (lines 230-258).
        `loadResult` is what reading the image would yield now (its natural
        size, or `None` when the resource is missing or unreadable); it is
        consulted only on a cache miss. */
    method DrawTexturedRectangle(x: real, y: real, path: Id, loadResult: Option<Size>)
      modifies this`images, this`imageLoads, this`boundTexture, this`texturedQuads
      ensures boundTexture == Some(path)
      ensures images == ComputeIfAbsent(old(images), path, loadResult).0
      ensures imageLoads == old(imageLoads) + (if path in old(images) then [] else [path])
      ensures texturedQuads == old(texturedQuads) +
        match ComputeIfAbsent(old(images), path, loadResult).1
        case None => []
        case Some(s) => [TexturedQuad(TruncToInt(x), TruncToInt(y), 0.0, 0.0, s.width, s.height, s.width, s.height)]
    {
      boundTexture := Some(path);
      var pair: Option<Size>;
      if path in images {
        pair := Some(images[path]);
      } else {
        imageLoads := imageLoads + [path];
        if loadResult.Some? {
          images := images[path := loadResult.value];
        }
        pair := loadResult;
      }
      if pair.None? {
        return;
      }
      var width := pair.value.width;
      var height := pair.value.height;
      texturedQuads := texturedQuads + [TexturedQuad(TruncToInt(x), TruncToInt(y), 0.0, 0.0, width, height, width, height)];
    }
  }
}
