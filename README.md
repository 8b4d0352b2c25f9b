# Canvas watermark: tile layout and draw pass

This project models the canvas watermark of the `libray` repository. It
appears twice, with near-identical code:

- `src/utils/watermark.ts` has a high-density flag `isHD`. When the width
  or the height is missing, it doubles both sides of the surface, the
  measured side and any explicit one alike. It also has a tamper guard.
- `packages/watermark/index.ts` has neither.

A `Watermark` is built on a canvas with a set of options. The constructor
resolves the options:

- it fills in the defaults;
- for image content, a zero image size falls back to the image's measured
  size, written into the caller's `imgInfo` object in place;
- a missing surface size falls back to the canvas's measured size.

Then it takes the canvas's 2-D context, or throws `context is null`. With a
context it draws once and, when `resizeRender` is on, starts a resize
observer.

A draw pass tiles the surface. It runs `i` from 0 to `ceil(width / xGap) + 1`
and, inside, `k` from 0 to `ceil(height / yGap) + 1`. Tile `(i, k)` is drawn
at `(i * xGap, k * yGap)` as save, translate, rotate, draw, restore.

- The text pass sets the font and fill colour once before the tiles and
  calls `beginPath()` after them.
- The image pass sets `globalAlpha` to `opacity ?? 1` before the tiles and
  back to 1 after them.

The resize handler resizes the canvas, clears it and draws again.

The 2-D context is a class (`Canvas2D.Context2D`) with three fields:

- a drawing state: transform steps, global alpha, font and fill style;
- a save stack;
- a log of every call made on it.

Each drawing call records the state it was made in. That lets the
properties of a pass be stated over the log:

- every tile is drawn with the pass's font, colour or alpha;
- each tile's rotation applies to that tile only.

A pure replay (`Canvas2D.Run`) gives the log a meaning, used to state that
save and restore balance.

Modules:

- `TileGrid`: the anchor sequence.
- `TilePass`: the log a pass produces, and what is proved about it.
- `TileDraw`: the imperative draw pass and tile loops. Both files share
  them, since their bodies are identical.
- `WatermarkOptions`: defaults, JavaScript truthiness, and the two sizing
  fallbacks.
- `UtilsWatermark` and `PackageWatermark`: one class per source file.

In three places the code does something other than what a reader of the
option names might expect ("width", "height", "isHD", "resize render").
The model follows the code in each case:

- The resize handler resizes the canvas but never updates
  `options.width/height`. A redraw after a resize therefore covers the
  construction-time grid, not the new canvas size.
- The high-density multiplier applies only when a side is missing, and
  then to both sides. Two explicit non-zero sides are used as given.
- A side of 0 counts as missing, because the code uses `||` and `!width`,
  not `??`.

## Model

| member | source | states |
|---|---|---|
| `TileGrid.CeilDiv` | src/utils/watermark.ts:182-183 | `Math.ceil(n / d)` for a positive gap: the least q with q·d ≥ n |
| `TileGrid.GridLength` | src/utils/watermark.ts:182-183 | the nested loops visit cols·rows anchors |
| `TileGrid.GridAt` | src/utils/watermark.ts:182-188 | anchor number i·rows + k is (i·xGap, k·yGap): i outer, k inner |
| `TileGrid.AnchorsCover` | src/utils/watermark.ts:182-188 | a pass has (ceil(W/xGap)+2)·(ceil(H/yGap)+2) anchors; the first is (0,0); the last is ((ceil(W/xGap)+1)·xGap, (ceil(H/yGap)+1)·yGap), which lies in [W+xGap, W+2·xGap) × [H+yGap, H+2·yGap), so at or beyond (W, H) |
| `TileGrid.AnchorsExample` | src/utils/watermark.ts:182-188 | a 200×100 surface with 50-pixel gaps gets 24 tiles, the last at (250, 150) |
| `TilePass.TileReplay` | src/utils/watermark.ts:241-245 | one tile pushes the state, draws with exactly its own translate and rotate added, and restores state and stack to what they were |
| `TilePass.TilesReplay` | src/utils/watermark.ts:182-191 | any number of tiles leaves state and save stack unchanged |
| `TilePass.OneTileCount` | src/utils/watermark.ts:223-227 | one tile makes one save, one restore, two transforms and one draw of its kind, nothing else |
| `TilePass.TilesCount` | src/utils/watermark.ts:198-208 | n tiles make n saves, n restores, 2n transforms and n draws of their kind |
| `TilePass.TilesDrawWith` | src/utils/watermark.ts:180-191 | every tile draws with the pass's font, fill style and alpha, and with the pass transform plus two steps |
| `TilePass.TilesItems` | src/utils/watermark.ts:198-208 | every tile draws the pass's text, or the pass's image at imgInfo's size |
| `TilePass.LeadTail` | src/utils/watermark.ts:177-210 | the calls around the tiles: font and fill style then `beginPath` for text; alpha to `opacity ?? 1` then alpha 1 for images; their effect on the state |
| `TilePass.DrawLogReplay` | src/utils/watermark.ts:195-210 | after `draw()` the save stack is as before; an image pass leaves alpha at 1 and a text pass leaves its font and colour, whatever the tile count |
| `TilePass.DrawLogCounts` | src/utils/watermark.ts:167-210 | `draw()` makes (ceil(W/xGap)+2)·(ceil(H/yGap)+2) saves and as many restores; only text draws or only image draws; font and fill style once per text pass; alpha exactly twice per image pass |
| `TilePass.DrawLogTile` | src/utils/watermark.ts:182-191 | the calls of tile (i, k) sit at position i·rows + k of the log, right after the leading calls, anchored at (i·xGap, k·yGap) |
| `TilePass.DrawLogUniform` | src/utils/watermark.ts:177-210 | every draw call of a pass uses the configured font and colour (text) or alpha `opacity ?? 1` and imgInfo's size (image) |
| `TileDraw.DrawTextItem` | src/utils/watermark.ts:230-246 | appends save, translate(x, y), rotate, fillText at the origin, restore; state and stack end unchanged |
| `TileDraw.DrawImageItem` | src/utils/watermark.ts:212-228 | appends save, translate(x, y), rotate, drawImage at the origin at imgInfo's size, restore; state and stack end unchanged |
| `TileDraw.DrawColumn` | src/utils/watermark.ts:183-190 | the inner loop appends the tiles of column i, k = 0 .. ceil(H/yGap)+1, in order |
| `TileDraw.DrawTiles` | src/utils/watermark.ts:182-191 | the nested loops append exactly one tile per anchor of `Anchors(W, H, xGap, yGap)`, in order; state and stack end unchanged |
| `TileDraw.DrawTextPass` | src/utils/watermark.ts:177-193 | the log gains font, fill style, the tiles, `beginPath`; the state keeps the new font and colour |
| `TileDraw.DrawImagePass` | src/utils/watermark.ts:195-210 | the log gains alpha `opacity ?? 1`, the tiles, alpha 1; the state ends with alpha 1 |
| `TileDraw.DrawPass` | packages/watermark/index.ts:126-137 | `draw()` runs the image pass for image content and the text pass otherwise |
| `WatermarkOptions.ImageSize` | src/utils/watermark.ts:71-77 | a zero side makes both sides the measured image size; otherwise the given size is kept |
| `WatermarkOptions.ImageSizeIdempotent` | src/utils/watermark.ts:71-77 | applying the fallback twice changes nothing more |
| `WatermarkOptions.ImgInfoFor` | src/utils/watermark.ts:64-77 | the caller's imgInfo is kept and, for image content, updated in place by the fallback; without one, a fresh {0, 0, opacity 1} that takes the measured image size |
| `WatermarkOptions.SurfaceSize` | src/utils/watermark.ts:78-86 | resizes iff a side is missing or 0; then each side is (explicit or measured) × the multiplier; otherwise both explicit sides unscaled |
| `WatermarkOptions.SizeCanvas` | src/utils/watermark.ts:78-86 | the canvas takes the resolved size exactly when a side was missing, and is untouched otherwise |
| `WatermarkOptions.HighDensityExample` | src/utils/watermark.ts:78-86 | a 100×50 canvas with `isHD` and no explicit size becomes 200×100 |
| `WatermarkOptions.ExplicitSizeIgnoresScale` | src/utils/watermark.ts:78-86 | two explicit non-zero sides give the same size whatever the measurement and the `isHD` flag |
| `UtilsWatermark.Resolve` | src/utils/watermark.ts:56-70 | every option given is kept as given and every option left out takes its default, field by field; the size and imgInfo are the resolved ones; gaps left unset or given non-zero resolve to positive gaps |
| `UtilsWatermark.OmittedOptionsDefault` | src/utils/watermark.ts:56-70 | whatever else is set, an option left out resolves to: rotate 45, font "20px Arial", colour "#000", gaps 50, resizeRender true, isHD false |
| `UtilsWatermark.ConstructionSize` | src/utils/watermark.ts:78-86 | with a side missing or 0: (explicit or measured) × 2 under `isHD`, × 1 otherwise; both given: used unscaled |
| `UtilsWatermark.Create` | src/utils/watermark.ts:51-108 | imgInfo fallback and canvas sizing happen first; Err "context is null" iff there is no context; otherwise the resolved options, exactly one draw pass logged, and an observer watching the canvas iff resizeRender |
| `UtilsWatermark.ResizeKeepsConstructionGrid` | src/utils/watermark.ts:120-128 | a watermark built with no options on a canvas measured 100×100, then resized to 300×300: the handler logs a clear of all 300×300 pixels and redraws only the 16 construction-time tiles, fewer than the 64 a 300×300 surface has |
| `UtilsWatermark.RedrawCounts` | src/utils/watermark.ts:177-193 | a clear followed by a text pass over a 100×100 surface with 50-pixel gaps makes 16 saves and 16 text draws |
| `UtilsWatermark.GridSizes` | src/utils/watermark.ts:182-183 | with 50-pixel gaps a 100-pixel side has 4 loop indices, a 300-pixel side 8, and a 300×300 surface 64 anchors |
| `UtilsWatermark.Watermark.constructor` | src/utils/watermark.ts:102-104 | keeps the context and runs `init()` |
| `UtilsWatermark.Watermark.Init` | src/utils/watermark.ts:110-117 | one draw pass, then an observer on the canvas iff resizeRender |
| `UtilsWatermark.Watermark.StartResizeObserver` | src/utils/watermark.ts:119-131 | a fresh observer that watches the canvas |
| `UtilsWatermark.Watermark.OnResize` | src/utils/watermark.ts:120-128 | with no entry nothing changes; otherwise the canvas becomes contentRect × the multiplier, the log gains a clear of the whole canvas and one draw pass over the construction-time options |
| `UtilsWatermark.Watermark.ClearResizeObserver` | src/utils/watermark.ts:160-165 | disconnects and unsets the observer; with none set, changes nothing, so a second call is a no-op |
| `UtilsWatermark.Watermark.Draw` | src/utils/watermark.ts:167-175 | one draw pass with the options as they are now |
| `PackageWatermark.Resolve` | packages/watermark/index.ts:45-58 | every option given is kept as given and every option left out takes its default, field by field; the size and imgInfo are the resolved ones; gaps left unset or given non-zero resolve to positive gaps |
| `PackageWatermark.OmittedOptionsDefault` | packages/watermark/index.ts:45-58 | whatever else is set, an option left out resolves to: rotate 45, font "20px Arial", colour "#000", gaps 50, resizeRender true |
| `PackageWatermark.ConstructionSize` | packages/watermark/index.ts:66-74 | with a side missing or 0: explicit or measured, no multiplier; both given: used as they are |
| `PackageWatermark.Create` | packages/watermark/index.ts:43-95 | imgInfo fallback and canvas sizing first; Err "context is null" iff there is no context; otherwise exactly one draw pass logged, and an observer iff resizeRender |
| `PackageWatermark.Watermark.constructor` | packages/watermark/index.ts:89-91 | keeps the context and runs `init()` |
| `PackageWatermark.Watermark.Init` | packages/watermark/index.ts:97-103 | one draw pass, then an observer on the canvas iff resizeRender |
| `PackageWatermark.Watermark.StartResizeObserver` | packages/watermark/index.ts:105-117 | a fresh observer that watches the canvas |
| `PackageWatermark.Watermark.OnResize` | packages/watermark/index.ts:106-114 | with no entry nothing changes; otherwise the canvas becomes contentRect, the log gains a clear of that area and one draw pass over the construction-time options |
| `PackageWatermark.Watermark.ClearResizeObserver` | packages/watermark/index.ts:119-124 | disconnects and unsets the observer; a second call is a no-op |
| `PackageWatermark.Watermark.Draw` | packages/watermark/index.ts:126-137 | one draw pass with the options as they are now |

## Left out

- Observer registration and callback delivery are not modelled. `OnResize` is the resize callback's body, called with the entries.
- The mutation observer and the tamper guard of `src/utils/watermark.ts` are not modelled: they remove added children and re-append a removed canvas. Neither is `#parentElement`.
- Rendering is not modelled. `fillText` and `drawImage` are logged calls. Font strings are not parsed, and out-of-range alpha values are not ignored as a browser would.
- The rotation is kept as its degree count. The `rotate * Math.PI / 180` conversion and transform geometry are not modelled.
- Sizes are whole pixels (`nat`). Fractional `getBoundingClientRect` sizes are not modelled.
- Assigning `canvas.width` or `canvas.height` resets a real context's state. The model keeps the context state across a resize.
- `UtilsWatermark.Create`: requires both gaps to be unset or non-zero. The source does not check this. With a zero gap and a non-zero side, `Math.ceil(w / 0)` is infinite and the loop never ends. With a zero gap and a zero side, `Math.ceil(0 / 0)` is NaN, `i <= NaN + 1` is false, and the pass draws no tiles at all. The model covers neither case. A side can be 0 when the canvas measures 0 wide or high.
- `PackageWatermark.Create`: requires both gaps to be unset or non-zero, for the same reasons and with the same two unmodelled outcomes.
- A browser ignores a `fillStyle` string it cannot parse as a colour, and keeps the previous one. The model's context always takes the string. So `TilePass.DrawLogUniform`'s "configured colour" holds in a browser only for a valid colour.
- `getContext('2d')` and the two `getBoundingClientRect` measurements are inputs: the canvas's optional context, `imageRect` and `canvasRect`.
- `instanceof HTMLImageElement` is a datatype tag (`Content.Text` or `Content.Image`). An image is an opaque identifier.
- The draw passes read the image size through `DrawParams` once per pass. The source reads `imgInfo` once per tile. Nothing changes `imgInfo` during a pass, so both read the same size.
