/**
 * How the watermark turns the options its caller passes into concrete values:
 * destructuring defaults, JavaScript truthiness of numbers (`!x` holds for
 * `undefined` and for 0), the image-size fallback and the surface sizing.
 */
module WatermarkOptions {
  import opened Wrappers
  import opened Canvas2D
  import opened TilePass

  const DefaultRotate: int := 45
  const DefaultFont: string := "20px Arial"
  const DefaultColor: string := "#000"
  const DefaultGap: nat := 50
  const DefaultResizeRender: bool := true
  const DefaultIsHD: bool := false

  /**
   * The `imgInfo` object: the size an image tile is drawn at and its opacity.
   * The constructor writes the measured size into it in place, so a caller's
   * object sees the change.
   */
  class ImgInfo {
    var width: nat
    var height: nat
    var opacity: Option<real>

    constructor (width: nat, height: nat, opacity: Option<real>)
      ensures this.width == width && this.height == height && this.opacity == opacity
    {
      this.width, this.height, this.opacity := width, height, opacity;
    }
  }

  /** `!!n` for an optional number: present and not 0. */
  predicate Truthy(n: Option<nat>)
  {
    n.Some? && n.value != 0
  }

  /** `n || fallback` for an optional number. */
  function OrElse(n: Option<nat>, fallback: nat): nat
  {
    if Truthy(n) then n.value else fallback
  }

  /** The high-density multiplier. */
  function Scale(isHD: bool): nat
  {
    if isHD then 2 else 1
  }

  /** The resolved surface size, and whether the canvas's backing size is set to it. */
  datatype Sizing = Sizing(width: nat, height: nat, resizesCanvas: bool)

  /**
   * When both an explicit width and height are given (and non-zero) they are
   * used as they are, unscaled, and the canvas is left alone. Otherwise each
   * side is its explicit value or else the measured one, times the
   * multiplier, and the canvas is resized to that.
   */
  function SurfaceSize(width: Option<nat>, height: Option<nat>, measured: Size, scale: nat): (r: Sizing)
    ensures r.resizesCanvas <==> !Truthy(width) || !Truthy(height)
    ensures !r.resizesCanvas ==> r.width == width.value && r.height == height.value
    ensures r.resizesCanvas && Truthy(width) ==> r.width == width.value * scale
    ensures r.resizesCanvas && !Truthy(width) ==> r.width == measured.width * scale
    ensures r.resizesCanvas && Truthy(height) ==> r.height == height.value * scale
    ensures r.resizesCanvas && !Truthy(height) ==> r.height == measured.height * scale
  {
    if Truthy(width) && Truthy(height) then
      Sizing(width.value, height.value, false)
    else
      Sizing(OrElse(width, measured.width) * scale, OrElse(height, measured.height) * scale, true)
  }

  /** High density with nothing explicit and a 100 x 50 canvas on the page: a 200 x 100 surface. */
  lemma HighDensityExample()
    ensures SurfaceSize(None, None, Size(100, 50), Scale(true)) == Sizing(200, 100, true)
  {
  }

  /** An explicit size does not depend on the measured size nor on the high-density flag. */
  lemma ExplicitSizeIgnoresScale(w: nat, h: nat, m1: Size, m2: Size, hd1: bool, hd2: bool)
    requires w != 0 && h != 0
    ensures SurfaceSize(Some(w), Some(h), m1, Scale(hd1)) == SurfaceSize(Some(w), Some(h), m2, Scale(hd2)) == Sizing(w, h, false)
  {
  }

  /**
   * The size an image tile is drawn at: the supplied size when both sides are
   * non-zero, otherwise the image's measured size for both sides.
   */
  function ImageSize(width: nat, height: nat, measured: Size): (r: Size)
    ensures width != 0 && height != 0 ==> r == Size(width, height)
    ensures width == 0 || height == 0 ==> r == measured
  {
    if width == 0 || height == 0 then measured else Size(width, height)
  }

  /** The fallback is idempotent: applying it to its own result changes nothing. */
  lemma ImageSizeIdempotent(width: nat, height: nat, measured: Size)
    ensures var r := ImageSize(width, height, measured);
      ImageSize(r.width, r.height, measured) == r
  {
  }

  /**
   * The constructor's imgInfo step: the caller's object, or a fresh one of
   * size 0 x 0 and opacity 1; for image content, a zero side makes the object
   * take the image's measured size, in place.
   */
  method ImgInfoFor(content: Content, given: Option<ImgInfo>, imageRect: Size) returns (imgInfo: ImgInfo)
    modifies if given.Some? then {given.value} else {}
    ensures given.Some? ==> imgInfo == given.value && imgInfo.opacity == old(imgInfo.opacity)
    ensures given.Some? && content.Image? ==>
      Size(imgInfo.width, imgInfo.height) == ImageSize(old(imgInfo.width), old(imgInfo.height), imageRect)
    ensures given.Some? && content.Text? ==> imgInfo.width == old(imgInfo.width) && imgInfo.height == old(imgInfo.height)
    ensures given.None? ==>
      fresh(imgInfo) && imgInfo.opacity == Some(1.0) &&
      Size(imgInfo.width, imgInfo.height) == (if content.Image? then imageRect else Size(0, 0))
  {
    if given.Some? {
      imgInfo := given.value;
    } else {
      imgInfo := new ImgInfo(0, 0, Some(1.0));
    }
    if content.Image? {
      if imgInfo.width == 0 || imgInfo.height == 0 {
        imgInfo.width := imageRect.width;
        imgInfo.height := imageRect.height;
      }
    }
  }

  /**
   * The constructor's sizing step: with both width and height given (and
   * non-zero) they are kept and the canvas is left alone; otherwise each
   * missing side is measured, both are multiplied by `scale`, and the canvas
   * takes that size.
   */
  method SizeCanvas(canvas: Canvas, width: Option<nat>, height: Option<nat>, canvasRect: Size, scale: nat) returns (size: Size)
    modifies canvas
    ensures var sz := SurfaceSize(width, height, canvasRect, scale);
      && size == Size(sz.width, sz.height)
      && if sz.resizesCanvas then canvas.width == sz.width && canvas.height == sz.height
         else canvas.width == old(canvas.width) && canvas.height == old(canvas.height)
  {
    if !Truthy(width) || !Truthy(height) {
      var w := OrElse(width, canvasRect.width) * scale;
      var h := OrElse(height, canvasRect.height) * scale;
      canvas.width := w;
      canvas.height := h;
      size := Size(w, h);
    } else {
      size := Size(width.value, height.value);
    }
  }
}
