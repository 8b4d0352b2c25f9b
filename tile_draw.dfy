/**
 * The draw passes, which both watermark classes share word for word:
 * `draw()`, the text pass, the image pass, their tile loops and the two
 * per-tile routines. The text pass and the image pass loop the same way and
 * differ only in what a tile draws, so the loops take the tile's item and
 * hand it to the routine for its kind.
 */
module TileDraw {
  import opened Wrappers
  import opened Canvas2D
  import opened TileGrid
  import opened TilePass

  /** `#drawTextItem`: save, move to the anchor, rotate, fill the text at the origin, restore. */
  method DrawTextItem(ctx: Context2D, text: string, rotate: int, x: nat, y: nat)
    modifies ctx
    ensures ctx.log == old(ctx.log) + TileLog(old(ctx.state), Point(x, y), rotate, TextItem(text))
    ensures ctx.Current() == old(ctx.Current())
  {
    ghost var s := ctx.state;
    ctx.Save();
    ctx.Translate(x, y);
    ctx.Rotate(rotate);
    assert ctx.state.transform == s.transform + [Translate(x, y), Rotate(rotate)];
    ctx.FillText(text, 0, 0);
    ctx.Restore();
    assert ctx.log == old(ctx.log) + TileLog(s, Point(x, y), rotate, TextItem(text));
  }

  /** `#drawImageItem`: save, move to the anchor, rotate, draw the image at width x height, restore. */
  method DrawImageItem(ctx: Context2D, image: ImageId, rotate: int, x: nat, y: nat, width: nat, height: nat)
    modifies ctx
    ensures ctx.log == old(ctx.log) + TileLog(old(ctx.state), Point(x, y), rotate, ImageItem(image, width, height))
    ensures ctx.Current() == old(ctx.Current())
  {
    ghost var s := ctx.state;
    ctx.Save();
    ctx.Translate(x, y);
    ctx.Rotate(rotate);
    assert ctx.state.transform == s.transform + [Translate(x, y), Rotate(rotate)];
    ctx.DrawImage(image, 0, 0, width, height);
    ctx.Restore();
    assert ctx.log == old(ctx.log) + TileLog(s, Point(x, y), rotate, ImageItem(image, width, height));
  }

  /** One tile: the text routine for text, the image routine for an image. */
  method DrawTile(ctx: Context2D, item: Item, rotate: int, x: nat, y: nat)
    modifies ctx
    ensures ctx.log == old(ctx.log) + TileLog(old(ctx.state), Point(x, y), rotate, item)
    ensures ctx.Current() == old(ctx.Current())
  {
    match item
    case TextItem(text) => DrawTextItem(ctx, text, rotate, x, y);
    case ImageItem(image, width, height) => DrawImageItem(ctx, image, rotate, x, y, width, height);
  }

  /** The inner loop for column i: k from 0 to ceil(height / yGap) + 1, tile at (i * xGap, k * yGap). */
  method DrawColumn(ctx: Context2D, item: Item, rotate: int, i: nat, height: nat, xGap: nat, yGap: nat)
    requires yGap > 0
    modifies ctx
    ensures ctx.log == old(ctx.log) + TilesLog(old(ctx.state), Column(i, TileCount(height, yGap), xGap, yGap), rotate, item)
    ensures ctx.Current() == old(ctx.Current())
  {
    ghost var s := ctx.state;
    var last := CeilDiv(height, yGap) + 1;
    var k := 0;
    while k <= last
      invariant k <= last + 1
      invariant ctx.state == old(ctx.state) && ctx.stack == old(ctx.stack)
      invariant ctx.log == old(ctx.log) + TilesLog(s, Column(i, k, xGap, yGap), rotate, item)
    {
      DrawTile(ctx, item, rotate, i * xGap, k * yGap);
      ColumnSnocLog(s, i, k, xGap, yGap, rotate, item);
      LogGrows(old(ctx.log), TilesLog(s, Column(i, k, xGap, yGap), rotate, item),
               TileLog(s, Point(i * xGap, k * yGap), rotate, item), TilesLog(s, Column(i, k + 1, xGap, yGap), rotate, item));
      k := k + 1;
    }
  }

  /**
   * Both loops of a pass: columns i from 0 to ceil(width / xGap) + 1, each
   * column's rows in order. The log gains one tile per anchor of the surface,
   * and the state and save stack end as they began.
   */
  method DrawTiles(ctx: Context2D, item: Item, rotate: int, width: nat, height: nat, xGap: nat, yGap: nat)
    requires xGap > 0 && yGap > 0
    modifies ctx
    ensures ctx.log == old(ctx.log) + TilesLog(old(ctx.state), Anchors(width, height, xGap, yGap), rotate, item)
    ensures ctx.Current() == old(ctx.Current())
  {
    ghost var s := ctx.state;
    ghost var rows := TileCount(height, yGap);
    var last := CeilDiv(width, xGap) + 1;
    var i := 0;
    while i <= last
      invariant i <= last + 1
      invariant ctx.state == old(ctx.state) && ctx.stack == old(ctx.stack)
      invariant ctx.log == old(ctx.log) + TilesLog(s, Grid(i, rows, xGap, yGap), rotate, item)
    {
      DrawColumn(ctx, item, rotate, i, height, xGap, yGap);
      GridSnoc(s, i, rows, xGap, yGap, rotate, item);
      LogGrows(old(ctx.log), TilesLog(s, Grid(i, rows, xGap, yGap), rotate, item),
               TilesLog(s, Column(i, rows, xGap, yGap), rotate, item), TilesLog(s, Grid(i + 1, rows, xGap, yGap), rotate, item));
      i := i + 1;
    }
  }

  /** The text pass: font and fill colour once, then every tile, then `beginPath()`. */
  method DrawTextPass(ctx: Context2D, p: DrawParams)
    requires p.HasGaps() && p.content.Text?
    modifies ctx
    ensures ctx.log == old(ctx.log) + DrawLog(old(ctx.state), p)
    ensures ctx.state == EndState(old(ctx.state), p) && ctx.stack == old(ctx.stack)
  {
    ctx.SetFont(p.font);
    ctx.SetFillStyle(p.color);
    ghost var log1 := ctx.log;
    DrawTiles(ctx, TextItem(p.content.text), p.rotate, p.width, p.height, p.xGap, p.yGap);
    ghost var tiles := ctx.log[|log1|..];
    assert ctx.log == log1 + tiles;
    ctx.BeginPath();
    LogGrows(old(ctx.log), Lead(p), tiles, Lead(p) + tiles);
    LogGrows(old(ctx.log), Lead(p) + tiles, Tail(p), DrawLog(old(ctx.state), p));
  }

  /** The image pass: global alpha to `opacity ?? 1`, every tile at imgInfo's size, then global alpha back to 1. */
  method DrawImagePass(ctx: Context2D, p: DrawParams)
    requires p.HasGaps() && p.content.Image?
    modifies ctx
    ensures ctx.log == old(ctx.log) + DrawLog(old(ctx.state), p)
    ensures ctx.state == EndState(old(ctx.state), p) && ctx.stack == old(ctx.stack)
  {
    ctx.SetGlobalAlpha(p.opacity.GetOr(1.0));
    ghost var log1 := ctx.log;
    DrawTiles(ctx, ImageItem(p.content.image, p.imgWidth, p.imgHeight), p.rotate, p.width, p.height, p.xGap, p.yGap);
    ghost var tiles := ctx.log[|log1|..];
    assert ctx.log == log1 + tiles;
    ctx.SetGlobalAlpha(1.0);
    LogGrows(old(ctx.log), Lead(p), tiles, Lead(p) + tiles);
    LogGrows(old(ctx.log), Lead(p) + tiles, Tail(p), DrawLog(old(ctx.state), p));
  }

  /** `draw()`: the image pass for image content, the text pass otherwise. */
  method DrawPass(ctx: Context2D, p: DrawParams)
    requires p.HasGaps()
    modifies ctx
    ensures ctx.log == old(ctx.log) + DrawLog(old(ctx.state), p)
    ensures ctx.state == EndState(old(ctx.state), p) && ctx.stack == old(ctx.stack)
  {
    if p.content.Image? {
      DrawImagePass(ctx, p);
    } else {
      DrawTextPass(ctx, p);
    }
  }
}
