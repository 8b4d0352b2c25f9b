/**
 * The watermark of packages/watermark/index.ts: the published package,
 * which has no high-density flag (measured sizes are used as they are) and
 * no tamper guard.
 */
module PackageWatermark {
  import opened Wrappers
  import opened Canvas2D
  import opened TileGrid
  import opened TilePass
  import opened WatermarkOptions
  import opened TileDraw

  /** The options a caller passes; None is a field left undefined. */
  datatype BaseOptions = BaseOptions(
    content: Content, rotate: Option<int>, font: Option<string>, color: Option<string>,
    width: Option<nat>, height: Option<nat>, xGap: Option<nat>, yGap: Option<nat>,
    resizeRender: Option<bool>, imgInfo: Option<ImgInfo>)

  /** The options after construction: every field concrete. */
  datatype Resolved = Resolved(
    content: Content, rotate: int, font: string, color: string, width: nat, height: nat,
    xGap: nat, yGap: nat, resizeRender: bool, imgInfo: ImgInfo)

  /** Keeps every option given and fills in the destructuring defaults; the surface size and the imgInfo object are resolved separately. */
  function Resolve(o: BaseOptions, imgInfo: ImgInfo, size: Size): (r: Resolved)
    ensures r.content == o.content && r.imgInfo == imgInfo && r.width == size.width && r.height == size.height
    ensures o.rotate.Some? ==> r.rotate == o.rotate.value
    ensures o.font.Some? ==> r.font == o.font.value
    ensures o.color.Some? ==> r.color == o.color.value
    ensures o.xGap.Some? ==> r.xGap == o.xGap.value
    ensures o.yGap.Some? ==> r.yGap == o.yGap.value
    ensures o.resizeRender.Some? ==> r.resizeRender == o.resizeRender.value
    ensures o.rotate.None? ==> r.rotate == DefaultRotate
    ensures o.font.None? ==> r.font == DefaultFont
    ensures o.color.None? ==> r.color == DefaultColor
    ensures o.xGap.None? ==> r.xGap == DefaultGap
    ensures o.yGap.None? ==> r.yGap == DefaultGap
    ensures o.resizeRender.None? ==> r.resizeRender == DefaultResizeRender
    ensures o.xGap != Some(0) && o.yGap != Some(0) ==> r.xGap > 0 && r.yGap > 0
  {
    Resolved(
      o.content, o.rotate.GetOr(DefaultRotate), o.font.GetOr(DefaultFont), o.color.GetOr(DefaultColor),
      size.width, size.height, o.xGap.GetOr(DefaultGap), o.yGap.GetOr(DefaultGap),
      o.resizeRender.GetOr(DefaultResizeRender), imgInfo)
  }

  /**
   * Each option left out resolves to its default, whatever the other options
   * are: rotate 45, font "20px Arial", colour "#000", gaps 50, resizeRender on.
   */
  lemma OmittedOptionsDefault(o: BaseOptions, imgInfo: ImgInfo, size: Size)
    ensures var r := Resolve(o, imgInfo, size);
      && (o.rotate.None? ==> r.rotate == 45)
      && (o.font.None? ==> r.font == "20px Arial")
      && (o.color.None? ==> r.color == "#000")
      && (o.xGap.None? ==> r.xGap == 50)
      && (o.yGap.None? ==> r.yGap == 50)
      && (o.resizeRender.None? ==> r.resizeRender)
  {
  }

  /** The surface size the constructor settles on: `width || oWidth`, `height || oHeight`, unscaled. */
  function ConstructionSize(options: BaseOptions, canvasRect: Size): (r: Sizing)
    ensures r.resizesCanvas <==> !Truthy(options.width) || !Truthy(options.height)
    ensures r.resizesCanvas ==> r.width == OrElse(options.width, canvasRect.width) && r.height == OrElse(options.height, canvasRect.height)
    ensures !r.resizesCanvas ==> r.width == options.width.value && r.height == options.height.value
  {
    SurfaceSize(options.width, options.height, canvasRect, 1)
  }

  /**
   * `new Watermark(canvas, options)`: resolves the options, writes the
   * measured image size into imgInfo when it has a zero side, sizes the
   * canvas, then throws if the canvas has no 2-D context and otherwise draws
   * once and starts the resize observer when resizeRender is on.
   * `imageRect` and `canvasRect` are what getBoundingClientRect measures.
   */
  method Create(canvas: Canvas, options: BaseOptions, imageRect: Size, canvasRect: Size) returns (r: Result<Watermark>)
    requires options.xGap != Some(0) && options.yGap != Some(0)
    modifies canvas, canvas.context, if options.imgInfo.Some? then {options.imgInfo.value} else {}
    ensures options.imgInfo.Some? && options.content.Image? ==>
      Size(options.imgInfo.value.width, options.imgInfo.value.height)
        == ImageSize(old(options.imgInfo.value.width), old(options.imgInfo.value.height), imageRect)
    ensures options.imgInfo.Some? && options.content.Text? ==>
      options.imgInfo.value.width == old(options.imgInfo.value.width) &&
      options.imgInfo.value.height == old(options.imgInfo.value.height)
    ensures options.imgInfo.Some? ==> options.imgInfo.value.opacity == old(options.imgInfo.value.opacity)
    ensures var sz := ConstructionSize(options, canvasRect);
      if sz.resizesCanvas then canvas.width == sz.width && canvas.height == sz.height
      else canvas.width == old(canvas.width) && canvas.height == old(canvas.height)
    ensures r.Ok? <==> canvas.context != null
    ensures r.Err? ==> r.message == "context is null"
    ensures r.Ok? ==>
      var w := r.value;
      var sz := ConstructionSize(options, canvasRect);
      && w.Valid() && w.canvas == canvas
      && w.options == Resolve(options, w.options.imgInfo, Size(sz.width, sz.height))
      && (options.imgInfo.Some? ==> w.options.imgInfo == options.imgInfo.value)
      && (options.imgInfo.None? ==>
            fresh(w.options.imgInfo) && w.options.imgInfo.opacity == Some(1.0) &&
            Size(w.options.imgInfo.width, w.options.imgInfo.height)
              == (if options.content.Image? then imageRect else Size(0, 0)))
      && w.context.log == old(canvas.context.log) + DrawLog(old(canvas.context.state), w.Params())
      && w.context.state == EndState(old(canvas.context.state), w.Params())
      && w.context.stack == old(canvas.context.stack)
      && (w.resizeObserver != null <==> w.options.resizeRender)
      && (w.resizeObserver != null ==> fresh(w.resizeObserver) && w.resizeObserver.observed == {canvas})
  {
    var imgInfo := ImgInfoFor(options.content, options.imgInfo, imageRect);
    var size := SizeCanvas(canvas, options.width, options.height, canvasRect, 1);
    var resolved := Resolve(options, imgInfo, size);
    var context := canvas.context;
    if context != null {
      var w := new Watermark(canvas, context, resolved);
      r := Ok(w);
    } else {
      r := Err("context is null");
    }
  }

  class Watermark {
    const canvas: Canvas
    const options: Resolved
    const context: Context2D
    var resizeObserver: ResizeObserver?

    ghost predicate Valid()
    {
      context == canvas.context && options.xGap > 0 && options.yGap > 0
    }

    /** What a draw pass reads from the options, imgInfo's fields as they are now. */
    function Params(): (p: DrawParams)
      reads options.imgInfo
    {
      DrawParams(
        options.content, options.rotate, options.font, options.color,
        options.width, options.height, options.xGap, options.yGap,
        options.imgInfo.width, options.imgInfo.height, options.imgInfo.opacity)
    }

    /** The constructor's tail once a context exists: keep it and run `init()`. */
    constructor (canvas: Canvas, context: Context2D, options: Resolved)
      requires canvas.context == context && options.xGap > 0 && options.yGap > 0
      modifies context
      ensures Valid() && this.canvas == canvas && this.options == options && this.context == context
      ensures context.log == old(context.log) + DrawLog(old(context.state), Params())
      ensures context.state == EndState(old(context.state), Params()) && context.stack == old(context.stack)
      ensures resizeObserver != null <==> options.resizeRender
      ensures resizeObserver != null ==> fresh(resizeObserver) && resizeObserver.observed == {canvas}
    {
      this.canvas := canvas;
      this.options := options;
      this.context := context;
      resizeObserver := null;
      new;
      Init();
    }

    /** `init()`: one draw, then the resize observer if resizeRender is on. */
    method Init()
      requires Valid()
      modifies this, context
      ensures context.log == old(context.log) + DrawLog(old(context.state), Params())
      ensures context.state == EndState(old(context.state), Params()) && context.stack == old(context.stack)
      ensures options.resizeRender ==> fresh(resizeObserver) && resizeObserver.observed == {canvas}
      ensures !options.resizeRender ==> resizeObserver == old(resizeObserver)
    {
      Draw();
      if options.resizeRender {
        StartResizeObserver();
      }
    }

    /** Creates an observer and has it watch the canvas. */
    method StartResizeObserver()
      modifies this
      ensures fresh(resizeObserver) && resizeObserver.observed == {canvas}
    {
      var observer := new ResizeObserver();
      observer.Observe(canvas);
      resizeObserver := observer;
    }

    /**
     * The resize callback's body, given the observer's entries: with at least
     * one entry, set the canvas to its content size, clear that area, and draw
     * again with the options as they were resolved at construction.
     */
    method OnResize(entries: seq<Size>)
      requires Valid()
      modifies canvas, context
      ensures entries == [] ==>
        canvas.width == old(canvas.width) && canvas.height == old(canvas.height) &&
        context.log == old(context.log) && context.Current() == old(context.Current())
      ensures entries != [] ==>
        && canvas.width == entries[0].width && canvas.height == entries[0].height
        && context.log == old(context.log) + [ClearRect(0, 0, entries[0].width, entries[0].height)]
                          + DrawLog(old(context.state), Params())
        && context.state == EndState(old(context.state), Params())
        && context.stack == old(context.stack)
    {
      if |entries| > 0 {
        var value := entries[0];
        canvas.width := value.width;
        canvas.height := value.height;
        context.ClearRect(0, 0, value.width, value.height);
        Draw();
      }
    }

    /** Disconnects and forgets the resize observer; with none, does nothing. */
    method ClearResizeObserver()
      modifies this, resizeObserver
      ensures resizeObserver == null
      ensures old(resizeObserver) != null ==> old(resizeObserver).observed == {}
      ensures old(resizeObserver) == null ==> unchanged(this)
    {
      if resizeObserver != null {
        resizeObserver.Disconnect();
        resizeObserver := null;
      }
    }

    /** `draw()`: one pass over the tiles with the options as they are now. */
    method Draw()
      requires Valid()
      modifies context
      ensures context.log == old(context.log) + DrawLog(old(context.state), Params())
      ensures context.state == EndState(old(context.state), Params()) && context.stack == old(context.stack)
    {
      DrawPass(context, Params());
    }
  }
}
