# LuminaClient click-GUI row and drawing helpers, in Dafny

This project models two parts of the LuminaClient overlay.

- **`ModuleButton`** is one module's row in the old click GUI. Its constructor builds a check box, mode box or slider for each Boolean, Mode or Number setting and skips any other setting. The offset advances one row height per setting, skipped ones included. A left click on the header toggles the module. A right click expands or collapses the row and asks the frame for a relayout. Every click and release is then forwarded to every widget. Widgets are rendered only while the row is extended.
- **`RenderUtils`** holds the static drawing helpers. The model covers their exact integer parts:
  - extraction of the channels of a packed ARGB `int`;
  - the corner ordering and the four vertices of `fill`;
  - the four bars of `drawHollowRect`;
  - the clip box of `enableScissor`;
  - the channel permutation of `getMcColor`;
  - the static texture-size cache of `drawTexturedRectangle`.

Files:

- `wrappers.dfy`: `Option`.
- `render_utils.dfy`: module `RenderUtils`.
  - Java `int` colours are `bv32` bit patterns. Java's arithmetic `>>` is written out as `Sar`.
  - `fill` coordinates are `real` (Java `double`).
  - The vertices `fill` emits and the texture draws are logs on a `Renderer` object, which also holds the current clip box and the bound texture. The static `images` map is also a field of that object.
  - The image loader is a parameter: the size reading the image would yield, or `None`.
- `module_button.dfy`: module `OldUi`.
  - `ModuleButton` is a class. The field `module` is named `mod`, because `module` is a Dafny keyword.
  - The Java classes `Frame` and `Module` are small classes that count calls to `updateButtons` and `toggle`. `toggle` is also modelled as flipping `enabled`.
  - Widgets are values: kind, setting and offset. The events forwarded to them are appended to the row's `delivered` log, indexed by component.

Behaviour of the code worth noting:

- `fill` orders the corners so that `x1 >= x2` and `y1 >= y2`.
- The hover test is open on all four sides: a point on the header's border is not hovered.
- Clicks and releases reach the widgets even while the row is collapsed.
- A degenerate rectangle still emits a four-vertex quad.

## Model

| member | source | states |
|---|---|---|
| `RenderUtils.Alpha` | src/main/java/me/stormcph/lumina/utils/render/RenderUtils.java:79 | the result lies in 0..255 and is non-negative, even for negative colours; shifted back by 24 it equals bits 24–31 of the colour |
| `RenderUtils.Red` | src/main/java/me/stormcph/lumina/utils/render/RenderUtils.java:80 | the result lies in 0..255 and is non-negative; shifted back by 16 it equals bits 16–23 of the colour |
| `RenderUtils.Green` | src/main/java/me/stormcph/lumina/utils/render/RenderUtils.java:81 | the result lies in 0..255 and is non-negative; shifted back by 8 it equals bits 8–15 of the colour |
| `RenderUtils.Blue` | src/main/java/me/stormcph/lumina/utils/render/RenderUtils.java:82 | the result lies in 0..255 and is non-negative; together with the colour's upper three bytes it rebuilds the colour |
| `RenderUtils.Pack` | src/main/java/me/stormcph/lumina/utils/render/RenderUtils.java:79-82 | packing four bytes as `(a<<24)\|(r<<16)\|(g<<8)\|b` and extracting returns the same four bytes; the packed `int` is negative exactly when alpha >= 128 |
| `RenderUtils.PackChannels` | src/main/java/me/stormcph/lumina/utils/render/RenderUtils.java:79-82 | the converse round trip: every colour, negative ones included, is the packing of its four extracted channels |
| `RenderUtils.ChannelsOf` | src/main/java/me/stormcph/lumina/utils/render/RenderUtils.java:88-91 | the r, g, b, a arguments passed to each vertex are bytes that repack to the original colour |
| `RenderUtils.McColor` | src/main/java/me/stormcph/lumina/utils/render/RenderUtils.java:260-262 | a colour exists exactly when all three arguments are bytes; its red comes from the 2nd argument, green from the 3rd, blue from the 1st, alpha is 255, and its packed `int` is negative |
| `RenderUtils.Normalize` | src/main/java/me/stormcph/lumina/utils/render/RenderUtils.java:69-78 | after the swaps `x1 >= x2` and `y1 >= y2`; the multisets `{x1,x2}` and `{y1,y2}` are kept; `x1`/`y1` are the maxima and `x2`/`y2` the minima of the inputs |
| `RenderUtils.NormalizeOrderedUnchanged` | src/main/java/me/stormcph/lumina/utils/render/RenderUtils.java:69-78 | corners that are already ordered are not changed |
| `RenderUtils.NormalizeIdempotent` | src/main/java/me/stormcph/lumina/utils/render/RenderUtils.java:69-78 | normalising twice equals normalising once |
| `RenderUtils.NormalizeSpan` | src/main/java/me/stormcph/lumina/utils/render/RenderUtils.java:69-78 | corners that hold a span's bounds on each axis, in either order, normalise to that span with the maxima first |
| `RenderUtils.FillVertices` | src/main/java/me/stormcph/lumina/utils/render/RenderUtils.java:87-91 | exactly four vertices, all with the colour's channels; they are (max x, min y), (min x, min y), (min x, max y), (max x, max y), in that order |
| `RenderUtils.HollowBars` | src/main/java/me/stormcph/lumina/utils/render/RenderUtils.java:188-192 | the outline is made of four `fill` rectangles |
| `RenderUtils.HollowBarSpans` | src/main/java/me/stormcph/lumina/utils/render/RenderUtils.java:188-192 | for t >= 0 the bars are [x-t,x]×[y-t,y+h+t], [x+w,x+w+t]×[y-t,y+h+t], [x,x+w]×[y-t,y] and [x,x+w]×[y+h,y+h+t], for every sign of w and h (a span whose ends depend on that sign is written with min/max) |
| `RenderUtils.HollowBarsMissInterior` | src/main/java/me/stormcph/lumina/utils/render/RenderUtils.java:188-192 | for t >= 0 no bar covers a point of the open interior (x,x+w)×(y,y+h) |
| `RenderUtils.ScissorFor` | src/main/java/me/stormcph/lumina/utils/render/RenderUtils.java:41-46 | the box's right edge is `x2*s`; its top edge in bottom-up coordinates is `(H-y1)*s`, which is the y axis flipped |
| `RenderUtils.ScissorExtentsNonNegative` | src/main/java/me/stormcph/lumina/utils/render/RenderUtils.java:43-46 | for a positive scale, width >= 0 iff x1 <= x2 and height >= 0 iff y1 <= y2 |
| `RenderUtils.ComputeIfAbsent` | src/main/java/me/stormcph/lumina/utils/render/RenderUtils.java:238-245 | existing entries are never changed; only the looked-up id can be added; a pair is returned iff the id is then stored, and it is the stored pair; on a hit the stored pair is returned, on a miss the loader's result |
| `RenderUtils.CacheHitIgnoresLoader` | src/main/java/me/stormcph/lumina/utils/render/RenderUtils.java:238-245 | on a hit the outcome does not depend on the loader |
| `RenderUtils.CacheLookupStable` | src/main/java/me/stormcph/lumina/utils/render/RenderUtils.java:222-245 | after a successful lookup, every later lookup of that id returns the same pair and leaves the map alone |
| `RenderUtils.TruncToInt` | src/main/java/me/stormcph/lumina/utils/render/RenderUtils.java:254 | Java's `(int)` cast of a float truncates toward zero |
| `RenderUtils.Renderer.constructor` | src/main/java/me/stormcph/lumina/utils/render/RenderUtils.java:222 | the texture-size map starts empty; nothing has been emitted |
| `RenderUtils.Renderer.EnableScissor` | src/main/java/me/stormcph/lumina/utils/render/RenderUtils.java:39-47 | the host clip box becomes `ScissorFor` of the arguments, the scale factor and the scaled height |
| `RenderUtils.Renderer.DisableScissor` | src/main/java/me/stormcph/lumina/utils/render/RenderUtils.java:61-63 | the clip box is cleared |
| `RenderUtils.Renderer.Fill` | src/main/java/me/stormcph/lumina/utils/render/RenderUtils.java:66-94 | swapping the local corners in place, then emitting, appends exactly `FillVertices` of the arguments to the vertex log |
| `RenderUtils.Renderer.DrawHollowRect` | src/main/java/me/stormcph/lumina/utils/render/RenderUtils.java:187-193 | appends the four bars' quads, in the order left, right, top, bottom |
| `RenderUtils.Renderer.DrawTexturedRectangle` | src/main/java/me/stormcph/lumina/utils/render/RenderUtils.java:230-258 | binds the texture; the map becomes `ComputeIfAbsent`'s; the loader is consulted only on a miss; a quad is drawn only when a pair is found, and it uses the pair as both the drawn size and the texture size |
| `OldUi.Components` | src/main/java/me/stormcph/lumina/ui/old_ui/ModuleButton.java:36-46 | the components built from the first n settings: at most n of them, each of the widget kind its setting's kind calls for |
| `OldUi.WidgetFor` | src/main/java/me/stormcph/lumina/ui/old_ui/ModuleButton.java:38-44 | Boolean→CheckBox, Mode→ModeBox, Number→Slider, and no widget exactly for any other kind |
| `OldUi.WidgetIndices` | src/main/java/me/stormcph/lumina/ui/old_ui/ModuleButton.java:37-46 | the listed indices are strictly increasing and in range, and each names a supported setting |
| `OldUi.WidgetIndicesComplete` | src/main/java/me/stormcph/lumina/ui/old_ui/ModuleButton.java:37-46 | a setting's index is listed iff the setting is supported |
| `OldUi.ComponentsAt` | src/main/java/me/stormcph/lumina/ui/old_ui/ModuleButton.java:36-46 | the k-th component is the widget of the k-th supported setting: matching kind, that setting, and offset `height*(i+1)` for its setting index `i`, so skipped settings leave gaps |
| `OldUi.AllSupportedComponents` | src/main/java/me/stormcph/lumina/ui/old_ui/ModuleButton.java:36-46 | with only supported settings there are exactly as many components as settings, the i-th at offset `height*(i+1)` |
| `OldUi.ClickStep` | src/main/java/me/stormcph/lumina/ui/old_ui/ModuleButton.java:64-71 | a click never undoes a call, and makes at most one call in all (one `toggle` or one `updateButtons`) |
| `OldUi.ClickStepEffects` | src/main/java/me/stormcph/lumina/ui/old_ui/ModuleButton.java:64-71 | the module is toggled (once) iff the header is hovered and the button is 0; `extended` flips, with one relayout, iff it is hovered and the button is 1; otherwise nothing changes |
| `OldUi.RightClickTwiceRestores` | src/main/java/me/stormcph/lumina/ui/old_ui/ModuleButton.java:67-69 | two hovered right clicks restore `extended` and cause two relayouts |
| `OldUi.ModuleButton.constructor` | src/main/java/me/stormcph/lumina/ui/old_ui/ModuleButton.java:29-47 | stores module, parent and offset; the row starts collapsed; the loop that accumulates `setOffset` builds exactly `Components` of the module's settings |
| `OldUi.ModuleButton.IsHovered` | src/main/java/me/stormcph/lumina/ui/old_ui/ModuleButton.java:84-86 | the pointer strictly inside the header rectangle; only a header of positive width and height can be hovered |
| `OldUi.ModuleButton.BorderNotHovered` | src/main/java/me/stormcph/lumina/ui/old_ui/ModuleButton.java:84-86 | the hover bounds are strict, so a point on the header's border is not hovered |
| `OldUi.ModuleButton.Forward` | src/main/java/me/stormcph/lumina/ui/old_ui/ModuleButton.java:73-75 | the event reaches every component once, in list order |
| `OldUi.ModuleButton.Render` | src/main/java/me/stormcph/lumina/ui/old_ui/ModuleButton.java:56-60 | the components are rendered iff the row is extended |
| `OldUi.ModuleButton.MouseClicked` | src/main/java/me/stormcph/lumina/ui/old_ui/ModuleButton.java:63-76 | `extended`, the module flag and the call counts change as `ClickStep` says for the hover state before the click; the click is then forwarded to every component whatever the hover state or `extended`; `components` is not modified |
| `OldUi.ModuleButton.MouseReleased` | src/main/java/me/stormcph/lumina/ui/old_ui/ModuleButton.java:78-82 | the release is forwarded to every component; nothing else changes |
| `OldUi.DoubleRightClick` | src/main/java/me/stormcph/lumina/ui/old_ui/ModuleButton.java:67-69 | two right clicks on the header, as method calls, restore `extended`, cause exactly two `updateButtons` calls, leave the module alone and forward both clicks to every component; only those fields can change |

## Left out

- `renderRoundedQuad`, `renderRoundedQuadInternal` and `drawCircle` are not modelled. Their vertex counts come from trigonometry and from a loop that accumulates a `double` step, so they depend on floating-point rounding.
- The `/ 255.0f` conversion of channels to floats and the `(float)` casts of vertex coordinates are not modelled. Channels are kept as byte values and coordinates as exact reals.
- `RenderUtils.Normalize` and `RenderUtils.Renderer.Fill` take the `double` coordinates as reals, so NaN is not modelled. With a NaN coordinate `x1 < x2` is false, so the source swaps nothing, and the ordering `x1 >= x2` that `Normalize` promises would not hold.
- Most host graphics calls are not modelled, and nothing records them:
  - `RenderSystem` blending (`enableBlend`, `defaultBlendFunc`, `disableBlend`) and `setShader`;
  - the `Tessellator`/`BufferBuilder` begin and the `BufferRenderer.drawWithGlobalProgram` submission, so the model does not record when a quad is actually drawn;
  - the `MatrixStack`/`Matrix4f` transforms, including `scale`.
- `RenderUtils.Renderer.Fill` logs the vertex positions before the position matrix is applied, where the source puts the transformed positions in the buffer.
- Only these host effects are recorded on `RenderUtils.Renderer`: the vertices `fill` emits, the current clip box, the bound texture and the `DrawableHelper.drawTexture` calls.
- `enableScissor(double…)` is not modelled. It only casts to `int`. The window's scale factor and scaled height are inputs: the truncated `int` scale and the height.
- `drawPlayerHead` is not modelled. It depends on the network player list and the skin drawer.
- `drawScaledTexturedRect` is not modelled. It does resource and image I/O.
- Image reading (`getResource`, `ImageIO.read`) is an input: the size it would yield, or `None` for any failure. The stack trace that `drawTexturedRectangle` prints when it catches an exception is not modelled.
- The static `images` map is a field of `RenderUtils.Renderer`, so two `Renderer` objects would hold two caches where the source has one; a model uses a single `Renderer`.
- Fill vertices and textured quads go to two separate logs, so their order relative to each other is not recorded.
- `Identifier` validation of the path is not modelled. The identifier is the path string.
- `TruncToInt`: the saturation of Java's float-to-`int` cast outside the `int` range, and NaN, are not modelled.
- `RenderUtils.HollowBars`, `RenderUtils.Renderer.DrawHollowRect`, `RenderUtils.ScissorFor` and `OldUi.ModuleButton.constructor` use unbounded integers. 32-bit overflow of coordinate sums (such as `x + width + thickness` and `y + height + thickness`), products and the `setOffset` accumulator is not modelled.
- `OldUi.ModuleButton.IsHovered` computes `parent.x + parent.width` and `parent.y + offset + parent.height` as unbounded integers, so their 32-bit overflow is not modelled. It takes the `double` pointer coordinates as reals, so NaN, which the source treats as not hovered, is not modelled.
- `ModuleButton.render` is not modelled beyond rendering the children. That covers:
  - the header fill and hover highlight;
  - the name label and its colour;
  - the unused `textOffset`;
  - the `DrawContext` overloads of `fill` and `drawStringShadow`.
- The behaviour of `CheckBox`, `ModeBox` and `Slider` is not part of this model. That covers toggling, mode cycling, and slider dragging and snapping. The model records only which events reach them.
- `Frame.updateButtons` and `Module.toggle` are not part of this model. They are represented by call counters; `toggle` also flips `enabled`.
