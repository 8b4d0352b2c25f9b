/**
 * The watermark of src/utils/watermark.ts: the variant with a high-density
 * flag (which doubles a measured surface size) and a tamper guard.
 */
module UtilsWatermark {
  import opened Wrappers
  import opened Canvas2D
  import opened TileGrid
  import opened TilePass
  import opened WatermarkOptions
  import opened TileDraw

  /** The options a caller passes; None is a field left undefined. */
  datatype BaseOptions = BaseOptions(
    content: Content, rotate: Option<int>, font: Option<string>, color: Option<string>,
    width: Option<nat>, height: Option<nat>, xGap: Option<nat>, yGap: Option<nat>,
    resizeRender: Option<bool>, isHD: Option<bool>, imgInfo: Option<ImgInfo>)

  /** The options after construction: every field concrete. */
  datatype Resolved = Resolved(
    content: Content, rotate: int, font: string, color: string, width: nat, height: nat,
    xGap: nat, yGap: nat, resizeRender: bool, imgInfo: ImgInfo, isHD: bool)

  /** Keeps every option given and fills in the destructuring defaults; the surface size and the imgInfo object are resolved separately. */
  function Resolve(o: BaseOptions, imgInfo: ImgInfo, size: Size): (r: Resolved)
    ensures r.content == o.content && r.imgInfo == imgInfo && r.width == size.width && r.height == size.height
    ensures o.rotate.Some? ==> r.rotate == o.rotate.value
    ensures o.font.Some? ==> r.font == o.font.value
    ensures o.color.Some? ==> r.color == o.color.value
    ensures o.xGap.Some? ==> r.xGap == o.xGap.value
    ensures o.yGap.Some? ==> r.yGap == o.yGap.value
    ensures o.resizeRender.Some? ==> r.resizeRender == o.resizeRender.value
    ensures o.isHD.Some? ==> r.isHD == o.isHD.value
    ensures o.rotate.None? ==> r.rotate == DefaultRotate
    ensures o.font.None? ==> r.font == DefaultFont
    ensures o.color.None? ==> r.color == DefaultColor
    ensures o.xGap.None? ==> r.xGap == DefaultGap
    ensures o.yGap.None? ==> r.yGap == DefaultGap
    ensures o.resizeRender.None? ==> r.resizeRender == DefaultResizeRender
    ensures o.isHD.None? ==> r.isHD == DefaultIsHD
    ensures o.xGap != Some(0) && o.yGap != Some(0) ==> r.xGap > 0 && r.yGap > 0
  {
    Resolved(
      o.content, o.rotate.GetOr(DefaultRotate), o.font.GetOr(DefaultFont), o.color.GetOr(DefaultColor),
      size.width, size.height, o.xGap.GetOr(DefaultGap), o.yGap.GetOr(DefaultGap),
      o.resizeRender.GetOr(DefaultResizeRender), imgInfo, o.isHD.GetOr(DefaultIsHD))
  }

  /**
   * Each option left out resolves to its default, whatever the other options
   * are: rotate 45, font "20px Arial", colour "#000", gaps 50, resizeRender on, isHD off.
   */
  lemma OmittedOptionsDefault(o: BaseOptions, imgInfo: ImgInfo, size: Size)
    ensures var r := Resolve(o, imgInfo, size);
      && (o.rotate.None? ==> r.rotate == 45)
      && (o.font.None? ==> r.font == "20px Arial")
      && (o.color.None? ==> r.color == "#000")
      && (o.xGap.None? ==> r.xGap == 50)
      && (o.yGap.None? ==> r.yGap == 50)
      && (o.resizeRender.None? ==> r.resizeRender)
      && (o.isHD.None? ==> !r.isHD)
  {
  }

  /**
   * The surface size the constructor settles on: `(width || oWidth) * (isHD ? 2 : 1)`
   * and likewise for the height when either side is missing, both sides
   * unscaled when both are given.
   */
  function ConstructionSize(options: BaseOptions, canvasRect: Size): (r: Sizing)
    ensures r.resizesCanvas <==> !Truthy(options.width) || !Truthy(options.height)
    ensures var m := if options.isHD == Some(true) then 2 else 1;
      r.resizesCanvas ==>
        r.width == OrElse(options.width, canvasRect.width) * m && r.height == OrElse(options.height, canvasRect.height) * m
    ensures !r.resizesCanvas ==> r.width == options.width.value && r.height == options.height.value
  {
    SurfaceSize(options.width, options.height, canvasRect, Scale(options.isHD.GetOr(DefaultIsHD)))
  }

  /**
   * `new Watermark(canvas, options)`: resolves the options, writes the
   * measured image size into imgInfo when it has a zero side, sizes the
   * canvas, then throws if the canvas has no 2-D context and otherwise draws
   * once and starts the resize observer when resizeRender is on.
   * `imageRect` and `canvasRect` are what getBoundingClientRect measures.
   */
  method Create(canvas: Canvas, options: BaseOptions, imageRect: Size, canvasRect: Size) returns (r: Result<Watermark>)
    requires options.xGap != Some(0) && options.yGap != Some(0)
    modifies canvas, canvas.context, if options.imgInfo.Some? then {options.imgInfo.value} else {}
    ensures options.imgInfo.Some? && options.content.Image? ==>
      Size(options.imgInfo.value.width, options.imgInfo.value.height)
        == ImageSize(old(options.imgInfo.value.width), old(options.imgInfo.value.height), imageRect)
    ensures options.imgInfo.Some? && options.content.Text? ==>
      options.imgInfo.value.width == old(options.imgInfo.value.width) &&
      options.imgInfo.value.height == old(options.imgInfo.value.height)
    ensures options.imgInfo.Some? ==> options.imgInfo.value.opacity == old(options.imgInfo.value.opacity)
    ensures var sz := ConstructionSize(options, canvasRect);
      if sz.resizesCanvas then canvas.width == sz.width && canvas.height == sz.height
      else canvas.width == old(canvas.width) && canvas.height == old(canvas.height)
    ensures r.Ok? <==> canvas.context != null
    ensures r.Err? ==> r.message == "context is null"
    ensures r.Ok? ==>
      var w := r.value;
      var sz := ConstructionSize(options, canvasRect);
      && w.Valid() && w.canvas == canvas
      && w.options == Resolve(options, w.options.imgInfo, Size(sz.width, sz.height))
      && (options.imgInfo.Some? ==> w.options.imgInfo == options.imgInfo.value)
      && (options.imgInfo.None? ==>
            fresh(w.options.imgInfo) && w.options.imgInfo.opacity == Some(1.0) &&
            Size(w.options.imgInfo.width, w.options.imgInfo.height)
              == (if options.content.Image? then imageRect else Size(0, 0)))
      && w.context.log == old(canvas.context.log) + DrawLog(old(canvas.context.state), w.Params())
      && w.context.state == EndState(old(canvas.context.state), w.Params())
      && w.context.stack == old(canvas.context.stack)
      && (w.resizeObserver != null <==> w.options.resizeRender)
      && (w.resizeObserver != null ==> fresh(w.resizeObserver) && w.resizeObserver.observed == {canvas})
  {
    var imgInfo := ImgInfoFor(options.content, options.imgInfo, imageRect);
    var size := SizeCanvas(canvas, options.width, options.height, canvasRect, Scale(options.isHD.GetOr(DefaultIsHD)));
    var resolved := Resolve(options, imgInfo, size);
    var context := canvas.context;
    if context != null {
      var w := new Watermark(canvas, context, resolved);
      r := Ok(w);
    } else {
      r := Err("context is null");
    }
  }

  /**
   * A redraw after a resize reuses the construction-time grid. A watermark
   * built with every option left out on a canvas measured at 100 x 100 tiles
   * it with 16 tiles. When the canvas is then resized to 300 x 300, the
   * handler clears all 300 x 300 pixels but redraws the same 16 tiles, fewer
   * than the 64 a 300 x 300 surface has. `redraw` is what the handler logs.
   */
  method ResizeKeepsConstructionGrid() returns (redraw: seq<Cmd>)
    ensures |redraw| > 0 && redraw[0] == ClearRect(0, 0, 300, 300)
    ensures Count(redraw, SaveKind) == 16 && Count(redraw, TextKind) == 16
    ensures Count(redraw, TextKind) < |Anchors(300, 300, DefaultGap, DefaultGap)| == 64
  {
    var ctx := new Context2D();
    var canvas := new Canvas(0, 0, ctx);
    var options := BaseOptions(Text("watermark"), None, None, None, None, None, None, None, None, None, None);
    var r := Create(canvas, options, Size(0, 0), Size(100, 100));
    assert r.Ok?;
    var w := r.value;
    var before := |ctx.log|;
    ghost var s0 := ctx.state;
    ghost var log0 := ctx.log;
    w.OnResize([Size(300, 300)]);
    redraw := ctx.log[before..];
    ghost var p := w.Params();
    assert p.width == 100 && p.height == 100 && p.xGap == 50 && p.yGap == 50 && p.content.Text?;
    ghost var clear := [ClearRect(0, 0, 300, 300)];
    LogGrows(log0, clear, DrawLog(s0, p), clear + DrawLog(s0, p));
    LogSuffix(log0, clear + DrawLog(s0, p));
    RedrawCounts(s0, p);
  }

  /** The counts of a 300 x 300 clear followed by a text pass over a 100 x 100 surface with 50-pixel gaps. */
  lemma RedrawCounts(s: DrawState, p: DrawParams)
    requires p.width == 100 && p.height == 100 && p.xGap == 50 && p.yGap == 50 && p.content.Text?
    ensures var redraw := [ClearRect(0, 0, 300, 300)] + DrawLog(s, p);
      Count(redraw, SaveKind) == 16 && Count(redraw, TextKind) == 16
    ensures |Anchors(300, 300, DefaultGap, DefaultGap)| == 64
  {
    GridSizes();
    DrawLogCounts(s, p);
    CountAppend([ClearRect(0, 0, 300, 300)], DrawLog(s, p), SaveKind);
    CountAppend([ClearRect(0, 0, 300, 300)], DrawLog(s, p), TextKind);
  }

  /** With 50-pixel gaps, a 100-pixel side has 4 tile indices and a 300-pixel side 8; a 300 x 300 surface has 64 anchors. */
  lemma GridSizes()
    ensures TileCount(100, 50) == 4 && TileCount(300, 50) == 8
    ensures |Anchors(300, 300, DefaultGap, DefaultGap)| == 64
  {
    assert CeilDiv(100, 50) == 2 by {
      var q := CeilDiv(100, 50);
      assert q * 50 >= 100 && (q == 0 || (q - 1) * 50 < 100);
    }
    assert CeilDiv(300, 50) == 6 by {
      var q := CeilDiv(300, 50);
      assert q * 50 >= 300 && (q == 0 || (q - 1) * 50 < 300);
    }
    GridLength(8, 8, 50, 50);
  }

  class Watermark {
    const canvas: Canvas
    const options: Resolved
    const context: Context2D
    var resizeObserver: ResizeObserver?

    ghost predicate Valid()
    {
      context == canvas.context && options.xGap > 0 && options.yGap > 0
    }

    /** What a draw pass reads from the options, imgInfo's fields as they are now. */
    function Params(): (p: DrawParams)
      reads options.imgInfo
    {
      DrawParams(
        options.content, options.rotate, options.font, options.color,
        options.width, options.height, options.xGap, options.yGap,
        options.imgInfo.width, options.imgInfo.height, options.imgInfo.opacity)
    }

    /** The constructor's tail once a context exists: keep it and run `init()`. */
    constructor (canvas: Canvas, context: Context2D, options: Resolved)
      requires canvas.context == context && options.xGap > 0 && options.yGap > 0
      modifies context
      ensures Valid() && this.canvas == canvas && this.options == options && this.context == context
      ensures context.log == old(context.log) + DrawLog(old(context.state), Params())
      ensures context.state == EndState(old(context.state), Params()) && context.stack == old(context.stack)
      ensures resizeObserver != null <==> options.resizeRender
      ensures resizeObserver != null ==> fresh(resizeObserver) && resizeObserver.observed == {canvas}
    {
      this.canvas := canvas;
      this.options := options;
      this.context := context;
      resizeObserver := null;
      new;
      Init();
    }

    /** `init()`: one draw, then the resize observer if resizeRender is on. */
    method Init()
      requires Valid()
      modifies this, context
      ensures context.log == old(context.log) + DrawLog(old(context.state), Params())
      ensures context.state == EndState(old(context.state), Params()) && context.stack == old(context.stack)
      ensures options.resizeRender ==> fresh(resizeObserver) && resizeObserver.observed == {canvas}
      ensures !options.resizeRender ==> resizeObserver == old(resizeObserver)
    {
      Draw();
      if options.resizeRender {
        StartResizeObserver();
      }
    }

    /** Creates an observer and has it watch the canvas. */
    method StartResizeObserver()
      modifies this
      ensures fresh(resizeObserver) && resizeObserver.observed == {canvas}
    {
      var observer := new ResizeObserver();
      observer.Observe(canvas);
      resizeObserver := observer;
    }

    /**
     * The resize callback's body, given the observer's entries: with at least
     * one entry, set the canvas to its content size times the high-density
     * multiplier, clear it, and draw again with the options as they were
     * resolved at construction.
     */
    method OnResize(entries: seq<Size>)
      requires Valid()
      modifies canvas, context
      ensures entries == [] ==>
        canvas.width == old(canvas.width) && canvas.height == old(canvas.height) &&
        context.log == old(context.log) && context.Current() == old(context.Current())
      ensures entries != [] ==>
        && canvas.width == entries[0].width * Scale(options.isHD)
        && canvas.height == entries[0].height * Scale(options.isHD)
        && context.log == old(context.log) + [ClearRect(0, 0, canvas.width, canvas.height)]
                          + DrawLog(old(context.state), Params())
        && context.state == EndState(old(context.state), Params())
        && context.stack == old(context.stack)
    {
      if |entries| > 0 {
        var value := entries[0];
        canvas.width := value.width * Scale(options.isHD);
        canvas.height := value.height * Scale(options.isHD);
        context.ClearRect(0, 0, canvas.width, canvas.height);
        Draw();
      }
    }

    /** Disconnects and forgets the resize observer; with none, does nothing. */
    method ClearResizeObserver()
      modifies this, resizeObserver
      ensures resizeObserver == null
      ensures old(resizeObserver) != null ==> old(resizeObserver).observed == {}
      ensures old(resizeObserver) == null ==> unchanged(this)
    {
      if resizeObserver != null {
        resizeObserver.Disconnect();
        resizeObserver := null;
      }
    }

    /** `draw()`: one pass over the tiles with the options as they are now. */
    method Draw()
      requires Valid()
      modifies context
      ensures context.log == old(context.log) + DrawLog(old(context.state), Params())
      ensures context.state == EndState(old(context.state), Params()) && context.stack == old(context.stack)
    {
      DrawPass(context, Params());
    }
  }
}
