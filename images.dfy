/** Pixel-buffer bounds: the parts of Go's image package the loader relies on
    (points, rectangles, the NRGBA buffer) and the engine's ImageObject.
    Pixels themselves are not modelled, only the bounds that decide the
    width and height reported to the renderer. */
module Images {
  import opened Errors

  datatype Point = Point(x: int, y: int)

  const Origin: Point := Point(0, 0)

  /** image.Rectangle: Min is inclusive, Max exclusive. */
  datatype Rectangle = Rectangle(min: Point, max: Point) {
    function Dx(): int { max.x - min.x }
    function Dy(): int { max.y - min.y }
    predicate WellFormed() { min.x <= max.x && min.y <= max.y }
  }

  function Abs(n: int): nat { if n < 0 then -n else n }

  /** image.Rect: a rectangle from two corners, with the coordinates swapped
      where needed so that the result is well formed. */
  function Rect(x0: int, y0: int, x1: int, y1: int): (r: Rectangle)
    ensures r.WellFormed()
    ensures {r.min.x, r.max.x} == {x0, x1} && {r.min.y, r.max.y} == {y0, y1}
    ensures r.Dx() == Abs(x1 - x0) && r.Dy() == Abs(y1 - y0)
  {
    var (lx, hx) := if x0 > x1 then (x1, x0) else (x0, x1);
    var (ly, hy) := if y0 > y1 then (y1, y0) else (y0, y1);
    Rectangle(Point(lx, ly), Point(hx, hy))
  }

  /** Go's conversion int(f) of a floating-point value: truncation toward
      zero, not rounding. */
  function Trunc(f: real): (r: int)
    ensures 0.0 <= f ==> r as real <= f < r as real + 1.0
    ensures f < 0.0 ==> r as real - 1.0 < f <= r as real
  {
    if f >= 0.0 then f.Floor else -((-f).Floor)
  }

  /** A decoded image as a foreign decoder hands it over: only its bounds. */
  datatype Raster = Raster(bounds: Rectangle)

  /** image.NRGBA: a non-premultiplied RGBA8 buffer covering `rect`. */
  datatype NRGBA = NRGBA(rect: Rectangle)

  /** The Image interface as the uploader sees it: the pixel data (absent
      for a nil Data()) and the reported width and height. */
  datatype Image = Image(data: Option<NRGBA>, width: int, height: int)

  /** ImageObject: the engine's Image over an NRGBA buffer. */
  datatype ImageObject = ImageObject(data: NRGBA) {
    /** Width is the maximum X coordinate of the buffer: its width in
        pixels when the buffer starts at the origin. */
    function Width(): (w: int)
      ensures w == data.rect.min.x + data.rect.Dx()
      ensures data.rect.min.x == 0 ==> w == data.rect.Dx()
      ensures data.rect.WellFormed() ==> data.rect.min.x <= w
    {
      data.rect.max.x
    }

    /** Height is the maximum Y coordinate of the buffer: its height in
        pixels when the buffer starts at the origin. */
    function Height(): (h: int)
      ensures h == data.rect.min.y + data.rect.Dy()
      ensures data.rect.min.y == 0 ==> h == data.rect.Dy()
      ensures data.rect.WellFormed() ==> data.rect.min.y <= h
    {
      data.rect.max.y
    }

    /** The object seen through the Image interface. */
    function AsImage(): (i: Image)
      ensures i.data.Some? && i.data.value == data
      ensures i.width == Width() && i.height == Height()
    {
      Image(Some(data), Width(), Height())
    }
  }

  /** The normalisation step of Load: a fresh NRGBA buffer of the decoded
      image's size, placed at the origin; the decoded image is drawn into
      it from its own Min corner. */
  function Normalize(b: Rectangle): (m: NRGBA)
    ensures m.rect.WellFormed()
    ensures b.WellFormed() ==> m.rect == Rectangle(Origin, Point(b.Dx(), b.Dy()))
    ensures b.WellFormed() ==> ImageObject(m).Width() == b.Dx() && ImageObject(m).Height() == b.Dy()
  {
    NRGBA(Rect(0, 0, b.Dx(), b.Dy()))
  }

  /** ImageToNRGBA: a width x height NRGBA buffer at the origin holding the
      image drawn from (0,0). A negative size is swapped to the other side
      of the origin by Rect, so the reported size is then 0. */
  function ImageToNRGBA(img: Raster, width: int, height: int): (m: NRGBA)
    ensures m.rect.Dx() == Abs(width) && m.rect.Dy() == Abs(height)
    ensures ImageObject(m).Width() == (if width < 0 then 0 else width)
    ensures ImageObject(m).Height() == (if height < 0 then 0 else height)
    ensures 0 <= width && 0 <= height ==> m.rect == Rectangle(Origin, Point(width, height))
  {
    NRGBA(Rect(0, 0, width, height))
  }
}
