/** The avatar crop canvas: an image dragged and zoomed under a fixed crop circle, over exact reals. */
module AvatarCrop {
  import opened Options

  const MAX_ZOOM_FACTOR: real := 6.0
  const WHEEL_FACTOR: real := 1.12
  const RADIUS_SHARE: real := 0.38
  const SLACK: real := 0.5

  datatype Point = Point(x: real, y: real)

  datatype Image = Null | Image(width: int, height: int) {
    predicate Loaded() {
      Image? && width > 0 && height > 0
    }
  }

  function Min(a: real, b: real): real {
    if b < a then b else a
  }

  function Max(a: real, b: real): real {
    if a < b then b else a
  }

  function Abs(a: real): real {
    if a < 0.0 then -a else a
  }

  /** qBound. */
  function Bound(lo: real, v: real, hi: real): real {
    Max(lo, Min(hi, v))
  }

  /** qFuzzyCompare on doubles, as exact arithmetic. */
  predicate FuzzyEqual(a: real, b: real) {
    Abs(a - b) * 1000000000000.0 <= Min(Abs(a), Abs(b))
  }

  /** One axis of clampOffset: where the image's edge goes, given the crop square's middle and half-width. */
  function ClampAxis(middle: real, radius: real, draw: real, v: real): real {
    if draw <= radius * 2.0 + SLACK then middle - draw * 0.5
    else Bound(middle + radius - draw, v, middle - radius)
  }

  /** The image's extent on one axis contains the crop square's. */
  predicate AxisCovered(middle: real, radius: real, draw: real, v: real) {
    v <= middle - radius && middle + radius <= v + draw
  }

  function CropRadius(width: int, height: int): real {
    Min(width as real, height as real) * RADIUS_SHARE
  }

  /** The smallest scale at which the image covers the crop square. */
  function CoverScale(image: Image, width: int, height: int): real {
    if !image.Loaded() then 1.0
    else
      var diameter := CropRadius(width, height) * 2.0;
      Max(diameter / image.width as real, diameter / image.height as real)
  }

  datatype Canvas = Canvas(image: Image, width: int, height: int, scale: real, offset: Point) {
    function Radius(): real {
      CropRadius(width, height)
    }

    function Center(): Point {
      Point(width as real * 0.5, height as real * 0.5)
    }

    /** The crop square's corner before or after its middle on both axes. */
    function CropCorner(sign: real): Point {
      Point(Center().x + Radius() * sign, Center().y + Radius() * sign)
    }

    function CoverMinScale(): real {
      CoverScale(image, width, height)
    }

    function Draw(): Point
      requires image.Image?
    {
      Point(image.width as real * scale, image.height as real * scale)
    }

    function Clamped(): Canvas {
      if image.Null? then this
      else this.(offset := Point(ClampAxis(Center().x, Radius(), Draw().x, offset.x),
                                 ClampAxis(Center().y, Radius(), Draw().y, offset.y)))
    }

    function Reset(): Canvas {
      if image.Null? then this.(scale := 1.0, offset := Point(0.0, 0.0))
      else
        var c := this.(scale := CoverMinScale());
        c.(offset := Point(Center().x - c.Draw().x * 0.5, Center().y - c.Draw().y * 0.5)).Clamped()
    }

    function Moved(delta: Point): Canvas {
      this.(offset := Point(offset.x + delta.x, offset.y + delta.y))
    }

    function ZoomScale(factor: real): real {
      Bound(CoverMinScale(), scale * factor, CoverMinScale() * MAX_ZOOM_FACTOR)
    }

    /** Scaled about the anchor, before clamping. */
    function Rescaled(anchor: Point, to: real): Canvas
      requires scale != 0.0
    {
      var ratio := to / scale;
      this.(scale := to, offset := Point(anchor.x - (anchor.x - offset.x) * ratio,
                                         anchor.y - (anchor.y - offset.y) * ratio))
    }

    function ZoomedAt(anchor: Point, factor: real): Canvas
      requires scale != 0.0
    {
      var to := ZoomScale(factor);
      if image.Null? then this
      else if FuzzyEqual(scale, to) then this.(scale := to).Clamped()
      else Rescaled(anchor, to).Clamped()
    }

    function Resized(w: int, h: int): Canvas {
      var c := this.(width := w, height := h);
      if image.Null? then c
      else c.(scale := if scale < c.CoverMinScale() then c.CoverMinScale() else scale).Clamped()
    }

    /** Left, top and side of the square of source pixels that is exported. */
    function Source(): (Point, real)
      requires scale != 0.0
    {
      (Point((Center().x - Radius() - offset.x) / scale, (Center().y - Radius() - offset.y) / scale),
       Radius() * 2.0 / scale)
    }

    /** The image coordinates shown at a widget position. */
    function ImagePoint(p: Point): Point
      requires scale != 0.0
    {
      Point((p.x - offset.x) / scale, (p.y - offset.y) / scale)
    }

    predicate Sized() {
      width > 0 && height > 0 && scale > 0.0
    }

    /** The image, if there is one, covers the crop square, at no less than the covering scale. */
    predicate Covered() {
      image.Image? ==>
        && image.Loaded() && scale >= CoverMinScale()
        && AxisCovered(Center().x, Radius(), Draw().x, offset.x)
        && AxisCovered(Center().y, Radius(), Draw().y, offset.y)
    }
  }

  // One axis

  lemma ClampAxisCovers(middle: real, radius: real, draw: real, v: real)
    requires radius > 0.0 && draw >= radius * 2.0
    ensures AxisCovered(middle, radius, draw, ClampAxis(middle, radius, draw, v))
  {
  }

  /** With room to spare, clamping moves the image to the nearest position that covers, so not at all if it does. */
  lemma ClampAxisNearest(middle: real, radius: real, draw: real, v: real, other: real)
    requires radius > 0.0 && draw > radius * 2.0 + SLACK && AxisCovered(middle, radius, draw, other)
    ensures Abs(ClampAxis(middle, radius, draw, v) - v) <= Abs(other - v)
    ensures ClampAxis(middle, radius, draw, v) == v <==> AxisCovered(middle, radius, draw, v)
  {
  }

  lemma ClampAxisAgain(middle: real, radius: real, draw: real, v: real)
    requires radius > 0.0
    ensures ClampAxis(middle, radius, draw, ClampAxis(middle, radius, draw, v)) == ClampAxis(middle, radius, draw, v)
  {
  }

  /** Where the image may rest on one axis: anywhere it covers, or in the middle if there is hardly room to move. */
  predicate Rests(middle: real, radius: real, draw: real, v: real) {
    if draw <= radius * 2.0 + SLACK then v == middle - draw * 0.5 else AxisCovered(middle, radius, draw, v)
  }

  /** No place to rest is nearer to the one asked for. */
  ghost predicate Nearest(middle: real, radius: real, draw: real, asked: real, v: real) {
    Rests(middle, radius, draw, v)
    && forall other :: Rests(middle, radius, draw, other) ==> Abs(v - asked) <= Abs(other - asked)
  }

  /** Clamping moves to the nearest place to rest, and so not at all exactly from such a place. */
  lemma ClampAxisRests(middle: real, radius: real, draw: real, v: real)
    requires radius > 0.0
    ensures Nearest(middle, radius, draw, v, ClampAxis(middle, radius, draw, v))
    ensures ClampAxis(middle, radius, draw, v) == v <==> Rests(middle, radius, draw, v)
  {
  }

  // Scale

  lemma Scales(x: real, y: real, c: real)
    requires c > 0.0
    ensures x <= y <==> x * c <= y * c
  {
    if x <= y {
      assert (y - x) * c >= 0.0;
    } else {
      assert (x - y) * c > 0.0;
    }
  }

  lemma DivideLess(a: real, b: real, c: real)
    requires c > 0.0
    ensures a / c <= b <==> a <= b * c
    ensures b <= a / c <==> b * c <= a
    ensures a / c == b <==> a == b * c
  {
    var q := a / c;
    assert q * c == a;
    Scales(q, b, c);
    Scales(b, q, c);
  }

  lemma RadiusPositive(c: Canvas)
    requires c.width > 0 && c.height > 0
    ensures c.Radius() > 0.0
  {
  }

  /** At the covering scale or above, the drawn image is at least as wide and as high as the crop square. */
  lemma ScaleCovers(c: Canvas)
    requires c.Sized() && c.image.Loaded()
    ensures c.CoverMinScale() > 0.0
    ensures c.scale >= c.CoverMinScale() <==> c.Draw().x >= c.Radius() * 2.0 && c.Draw().y >= c.Radius() * 2.0
  {
    RadiusPositive(c);
    DivideLess(c.Radius() * 2.0, c.scale, c.image.width as real);
    DivideLess(c.Radius() * 2.0, c.scale, c.image.height as real);
    DivideLess(c.Radius() * 2.0, 0.0, c.image.width as real);
  }

  lemma ClampCovers(c: Canvas)
    requires c.Sized() && c.image.Loaded() && c.scale >= c.CoverMinScale()
    ensures c.Clamped().Sized() && c.Clamped().Covered()
  {
    hide ClampAxis, AxisCovered, CropRadius, CoverScale;
    RadiusPositive(c);
    ScaleCovers(c);
    ClampAxisCovers(c.Center().x, c.Radius(), c.Draw().x, c.offset.x);
    ClampAxisCovers(c.Center().y, c.Radius(), c.Draw().y, c.offset.y);
    var d := c.Clamped();
    assert d.Center() == c.Center() && d.Radius() == c.Radius() && d.Draw() == c.Draw();
    assert d.CoverMinScale() == c.CoverMinScale();
  }

  // The user's actions

  /** Factors are the wheel's; sizes are the widget's. */
  datatype Action =
    | Load(image: Image)
    | Drag(delta: Point)
    | Zoom(anchor: Point, factor: real)
    | Resize(width: int, height: int)

  predicate Enabled(a: Action) {
    match a
    case Load(image) => image.Null? || image.Loaded()
    case Resize(width, height) => width > 0 && height > 0
    case _ => true
  }

  function After(c: Canvas, a: Action): Canvas
    requires c.scale != 0.0
  {
    match a
    case Load(image) => c.(image := image).Reset()
    case Drag(delta) => c.Moved(delta).Clamped()
    case Zoom(anchor, factor) => c.ZoomedAt(anchor, factor)
    case Resize(width, height) => c.Resized(width, height)
  }

  /** A canvas that has been shown at some size, before any image. */
  function Fresh(width: int, height: int): Canvas {
    Canvas(Null, width, height, 1.0, Point(0.0, 0.0))
  }

  ghost function Run(c: Canvas, actions: seq<Action>): (r: Canvas)
    requires c.Sized() && c.Covered() && forall a :: a in actions ==> Enabled(a)
    ensures r.Sized() && r.Covered()
  {
    if actions == [] then c
    else
      var before := Run(c, actions[..|actions| - 1]);
      ActionKeeps(before, actions[|actions| - 1]);
      After(before, actions[|actions| - 1])
  }

  lemma ZoomScaleAtLeast(c: Canvas, factor: real)
    requires c.Sized() && c.image.Loaded()
    ensures 0.0 < c.CoverMinScale() <= c.ZoomScale(factor) <= c.CoverMinScale() * MAX_ZOOM_FACTOR
  {
    hide CoverScale;
    ScaleCovers(c);
  }

  /** Loading, dragging, zooming and resizing all leave the crop square covered. */
  lemma ActionKeeps(c: Canvas, a: Action)
    requires c.Sized() && c.Covered() && Enabled(a)
    ensures After(c, a).Sized() && After(c, a).Covered()
  {
    hide ClampAxis, AxisCovered, CropRadius, CoverScale, FuzzyEqual, Canvas.ZoomScale;
    match a
    case Load(image) =>
      if image.Image? {
        LoadKeeps(c.(image := image));
      }
    case Drag(delta) =>
      if c.image.Image? {
        ClampCovers(c.Moved(delta));
      }
    case Zoom(anchor, factor) =>
      if c.image.Image? {
        ZoomScaleAtLeast(c, factor);
        ClampCovers(c.(scale := c.ZoomScale(factor)));
        ClampCovers(c.Rescaled(anchor, c.ZoomScale(factor)));
      }
    case Resize(width, height) =>
      if c.image.Image? {
        ResizeKeeps(c, width, height);
      }
  }

  lemma LoadKeeps(c: Canvas)
    requires c.Sized() && c.image.Loaded()
    ensures c.Reset().Sized() && c.Reset().Covered()
  {
    hide ClampAxis, AxisCovered, CropRadius, CoverScale;
    ScaleCovers(c);
    var d := c.(scale := c.CoverMinScale());
    ClampCovers(d.(offset := Point(d.Center().x - d.Draw().x * 0.5, d.Center().y - d.Draw().y * 0.5)));
  }

  lemma ResizeKeeps(c: Canvas, width: int, height: int)
    requires c.Sized() && c.image.Loaded() && width > 0 && height > 0
    ensures c.Resized(width, height).Sized() && c.Resized(width, height).Covered()
  {
    hide ClampAxis, AxisCovered, CropRadius, CoverScale;
    var d := c.(width := width, height := height);
    ScaleCovers(d);
    ClampCovers(d.(scale := if d.scale < d.CoverMinScale() then d.CoverMinScale() else d.scale));
  }

  /** In every reachable state clamping has nothing left to do. */
  lemma {:induction false} RunSettled(c: Canvas, actions: seq<Action>)
    requires c.Sized() && c.Covered() && c.Clamped() == c && forall a :: a in actions ==> Enabled(a)
    ensures Run(c, actions).Clamped() == Run(c, actions)
  {
    hide ClampAxis, CropRadius, CoverScale, FuzzyEqual, Canvas.Covered;
    if actions != [] {
      var n := |actions| - 1;
      RunSettled(c, actions[..n]);
      var before := Run(c, actions[..n]);
      ActionSettles(before, actions[n]);
    }
  }

  lemma ClampTwice(c: Canvas)
    requires c.Sized()
    ensures c.Clamped().Clamped() == c.Clamped()
  {
    hide ClampAxis, CropRadius;
    RadiusPositive(c);
    if c.image.Image? {
      ClampAxisAgain(c.Center().x, c.Radius(), c.Draw().x, c.offset.x);
      ClampAxisAgain(c.Center().y, c.Radius(), c.Draw().y, c.offset.y);
      var d := c.Clamped();
      assert d.Center() == c.Center() && d.Radius() == c.Radius() && d.Draw() == c.Draw();
    }
  }

  lemma ActionSettles(c: Canvas, a: Action)
    requires c.Sized() && c.Covered() && Enabled(a)
    ensures After(c, a).Clamped() == After(c, a)
  {
    hide ClampAxis, CropRadius, CoverScale, FuzzyEqual, Canvas.ZoomScale, Canvas.Covered;
    match a
    case Load(image) =>
      if image.Image? {
        var d := c.(image := image);
        ScaleCovers(d);
        var e := d.(scale := d.CoverMinScale());
        ClampTwice(e.(offset := Point(e.Center().x - e.Draw().x * 0.5, e.Center().y - e.Draw().y * 0.5)));
      }
    case Drag(delta) => ClampTwice(c.Moved(delta));
    case Zoom(anchor, factor) =>
      if c.image.Image? {
        CoveredLoaded(c);
        ZoomScaleAtLeast(c, factor);
        ClampTwice(c.(scale := c.ZoomScale(factor)));
        ClampTwice(c.Rescaled(anchor, c.ZoomScale(factor)));
      }
    case Resize(width, height) =>
      if c.image.Image? {
        CoveredLoaded(c);
        var d := c.(width := width, height := height);
        ScaleCovers(d);
        ClampTwice(d.(scale := if d.scale < d.CoverMinScale() then d.CoverMinScale() else d.scale));
      }
  }

  lemma CoveredLoaded(c: Canvas)
    requires c.Covered() && c.image.Image?
    ensures c.image.Loaded()
  {
  }

  // What the actions do to what is seen

  /** An offset at which the canvas would rest as it is. */
  predicate RestsAt(c: Canvas, offset: Point)
    requires c.image.Image?
  {
    && Rests(c.Center().x, c.Radius(), c.Draw().x, offset.x)
    && Rests(c.Center().y, c.Radius(), c.Draw().y, offset.y)
  }

  ghost predicate NearestTo(c: Canvas, asked: Point)
    requires c.image.Image?
  {
    && Nearest(c.Center().x, c.Radius(), c.Draw().x, asked.x, c.offset.x)
    && Nearest(c.Center().y, c.Radius(), c.Draw().y, asked.y, c.offset.y)
  }

  lemma ClampedNearest(c: Canvas)
    requires c.Sized() && c.image.Loaded()
    ensures NearestTo(c.Clamped(), c.offset) && (c.Clamped() == c <==> RestsAt(c, c.offset))
  {
    hide ClampAxis, Rests, Nearest, CropRadius;
    RadiusPositive(c);
    ClampAxisRests(c.Center().x, c.Radius(), c.Draw().x, c.offset.x);
    ClampAxisRests(c.Center().y, c.Radius(), c.Draw().y, c.offset.y);
    var d := c.Clamped();
    assert d.Center() == c.Center() && d.Radius() == c.Radius() && d.Draw() == c.Draw();
  }

  /**
   A drag carries whatever is seen at p along with the mouse, exactly when the image may rest where that takes it;
   otherwise it goes to the nearest place to rest.
  */
  lemma DragMoves(c: Canvas, p: Point, d: Point)
    requires c.Sized() && c.image.Loaded()
    ensures var c' := After(c, Drag(d));
            var asked := Point(c.offset.x + d.x, c.offset.y + d.y);
            && c'.scale == c.scale && c'.image == c.image && NearestTo(c', asked)
            && (c'.ImagePoint(Point(p.x + d.x, p.y + d.y)) == c.ImagePoint(p) <==> RestsAt(c, asked))
  {
    hide ClampAxis, Rests, Nearest, CropRadius;
    var moved := c.Moved(d);
    var c' := moved.Clamped();
    ClampedNearest(moved);
    assert moved.Center() == c.Center() && moved.Radius() == c.Radius() && moved.Draw() == c.Draw();
    SameQuotient(p.x + d.x - c'.offset.x, p.x - c.offset.x, c.scale);
    SameQuotient(p.y + d.y - c'.offset.y, p.y - c.offset.y, c.scale);
  }

  lemma SameQuotient(a: real, b: real, c: real)
    requires c > 0.0
    ensures a / c == b / c <==> a == b
  {
    DivideLess(a, b / c, c);
    DivideLess(b, b / c, c);
  }

  /** A loaded image is shown at the covering scale, its middle in the middle of the widget. */
  lemma LoadCenters(c: Canvas, image: Image)
    requires c.Sized() && image.Loaded()
    ensures var c' := After(c, Load(image));
            && c'.image == image && c'.scale == c'.CoverMinScale() > 0.0
            && c'.ImagePoint(c'.Center()) == Point(image.width as real * 0.5, image.height as real * 0.5)
  {
    hide CropRadius, CoverScale, ClampAxis, Rests, Nearest;
    var loaded := c.(image := image);
    ScaleCovers(loaded);
    var scaled := loaded.(scale := loaded.CoverMinScale());
    ScaleCovers(scaled);
    var center, draw := scaled.Center(), scaled.Draw();
    var placed := scaled.(offset := Point(center.x - draw.x * 0.5, center.y - draw.y * 0.5));
    assert placed.Center() == center && placed.Draw() == draw && placed.Radius() == scaled.Radius();
    MiddleRests(center.x, scaled.Radius(), draw.x);
    MiddleRests(center.y, scaled.Radius(), draw.y);
    ClampedNearest(placed);
    assert After(c, Load(image)) == placed;
    HalfDrawn(image.width as real, scaled.scale);
    HalfDrawn(image.height as real, scaled.scale);
  }

  lemma MiddleRests(middle: real, radius: real, draw: real)
    requires draw >= radius * 2.0
    ensures Rests(middle, radius, draw, middle - draw * 0.5)
  {
  }

  lemma HalfDrawn(pixels: real, scale: real)
    requires scale > 0.0
    ensures pixels * scale * 0.5 / scale == pixels * 0.5
  {
    DivideLess(pixels * scale * 0.5, pixels * 0.5, scale);
  }

  /** A zoom gives the scale asked for, or the nearest one within the limits. */
  lemma ZoomScales(c: Canvas, anchor: Point, factor: real, other: real)
    requires c.Sized() && c.image.Loaded()
    ensures var low, high := c.CoverMinScale(), c.CoverMinScale() * MAX_ZOOM_FACTOR;
            var scale := c.ZoomedAt(anchor, factor).scale;
            && low <= scale <= high
            && (scale == c.scale * factor <==> low <= c.scale * factor <= high)
            && (low <= other <= high ==> Abs(scale - c.scale * factor) <= Abs(other - c.scale * factor))
  {
    hide ClampAxis, CropRadius, CoverScale, FuzzyEqual;
    ScaleCovers(c);
  }

  /** A resize keeps the scale unless it has become too small to cover, and moves the image as little as it may. */
  lemma ResizeMoves(c: Canvas, width: int, height: int)
    requires c.Sized() && c.image.Loaded() && width > 0 && height > 0
    ensures var c' := After(c, Resize(width, height));
            && c'.image == c.image && c'.width == width && c'.height == height
            && c'.scale == Max(c.scale, c'.CoverMinScale()) && NearestTo(c', c.offset)
  {
    hide ClampAxis, CropRadius, CoverScale, Nearest, Rests;
    var resized := c.(width := width, height := height);
    var scaled := resized.(scale := Max(c.scale, resized.CoverMinScale()));
    ScaleCovers(resized);
    ClampedNearest(scaled);
  }

  // What is exported

  /** The exported square lies wholly inside the image. */
  lemma SourceInside(c: Canvas)
    requires c.Sized() && c.Covered() && c.image.Image?
    ensures var (at, side) := c.Source();
            && side > 0.0
            && 0.0 <= at.x && at.x + side <= c.image.width as real
            && 0.0 <= at.y && at.y + side <= c.image.height as real
  {
    hide CropRadius, CoverScale;
    RadiusPositive(c);
    SourceAxis(c.Center().x - c.Radius() - c.offset.x, c.Radius() * 2.0, c.image.width as real, c.scale);
    SourceAxis(c.Center().y - c.Radius() - c.offset.y, c.Radius() * 2.0, c.image.height as real, c.scale);
  }

  lemma SourceAxis(gap: real, side: real, pixels: real, scale: real)
    requires scale > 0.0 && gap >= 0.0 && side > 0.0 && gap + side <= pixels * scale
    ensures 0.0 <= gap / scale && 0.0 < side / scale && gap / scale + side / scale <= pixels
  {
    DivideLess(gap, 0.0, scale);
    DivideLess(side, 0.0, scale);
    DivideLess(gap + side, pixels, scale);
    SumOver(gap, side, scale);
  }

  lemma SumOver(a: real, b: real, c: real)
    requires c > 0.0
    ensures a / c + b / c == (a + b) / c
  {
    DivideLess(a + b, a / c + b / c, c);
  }

  // Zooming

  /**
   The image point under the anchor stays put exactly when clamping has nothing to correct, as long as the new
   scale is more than fuzzily different. Otherwise the offset is not rescaled, and the point stays put only where
   clamping happens to put the offset at the rescaled place.
  */
  lemma AnchorFixed(c: Canvas, anchor: Point, factor: real)
    requires c.Sized() && c.image.Loaded()
    ensures var to := c.ZoomScale(factor);
            var moved := c.Rescaled(anchor, to);
            var zoomed := c.ZoomedAt(anchor, factor);
            && zoomed.scale == to > 0.0
            && (zoomed.ImagePoint(anchor) == c.ImagePoint(anchor)
                <==> if FuzzyEqual(c.scale, to) then c.(scale := to).Clamped().offset == moved.offset
                     else moved.Clamped() == moved)
  {
    hide ClampAxis, CropRadius, CoverScale, FuzzyEqual, Canvas.ZoomScale;
    ZoomScaleAtLeast(c, factor);
    var to := c.ZoomScale(factor);
    var zoomed := c.ZoomedAt(anchor, factor);
    AnchorAxis(anchor.x, c.offset.x, c.scale, to, zoomed.offset.x);
    AnchorAxis(anchor.y, c.offset.y, c.scale, to, zoomed.offset.y);
  }

  /** With a fuzzily equal scale and nothing to clamp, only an anchor in the image's corner, or no change, is safe. */
  lemma FuzzyZoomSlips(c: Canvas, anchor: Point, factor: real)
    requires c.Sized() && c.image.Loaded() && FuzzyEqual(c.scale, c.ZoomScale(factor))
    requires c.(scale := c.ZoomScale(factor)).Clamped().offset == c.offset
    ensures c.ZoomedAt(anchor, factor).scale > 0.0
    ensures c.ZoomedAt(anchor, factor).ImagePoint(anchor) == c.ImagePoint(anchor)
            <==> c.ZoomScale(factor) == c.scale || anchor == c.offset
  {
    hide ClampAxis, CropRadius, CoverScale, FuzzyEqual, Canvas.ZoomScale, Canvas.Clamped;
    AnchorFixed(c, anchor, factor);
    RescaledAxis(anchor.x, c.offset.x, c.scale, c.ZoomScale(factor));
    RescaledAxis(anchor.y, c.offset.y, c.scale, c.ZoomScale(factor));
  }

  lemma RescaledAxis(anchor: real, offset: real, scale: real, to: real)
    requires scale > 0.0
    ensures offset == anchor - (anchor - offset) * (to / scale) <==> to == scale || anchor == offset
  {
    var d, q := anchor - offset, to / scale;
    assert q * scale == to;
    if q != 1.0 && d != 0.0 {
      assert d * (q - 1.0) != 0.0;
    }
  }

  /** After a load and a zoom to a hair below the limit, one more wheel step makes the point under the mouse slip. */
  lemma ZoomCanSlip() returns (actions: seq<Action>, anchor: Point)
    ensures forall a :: a in actions ==> Enabled(a)
    ensures var c := Run(Fresh(100, 100), actions);
            && c.ZoomedAt(anchor, WHEEL_FACTOR).scale > c.scale
            && c.ZoomedAt(anchor, WHEEL_FACTOR).ImagePoint(anchor) != c.ImagePoint(anchor)
  {
    anchor := Point(50.0, 50.0);
    var load, zoom := Load(Image(100, 100)), Zoom(anchor, 5.9999999999999);
    actions := [load, zoom];
    var loaded := Canvas(Image(100, 100), 100, 100, 0.76, Point(12.0, 12.0));
    assert loaded.CoverMinScale() == 0.76;
    assert After(Fresh(100, 100), load) == loaded;
    var c := Canvas(Image(100, 100), 100, 100, 4.559999999999924, Point(-177.9999999999962, -177.9999999999962));
    assert loaded.Rescaled(anchor, c.scale) == c && c.Clamped() == c;
    assert After(loaded, zoom) == c;
    assert c.ZoomScale(WHEEL_FACTOR) == 4.56;
    FuzzyZoomSlips(c, anchor, WHEEL_FACTOR);
    RunTwo(Fresh(100, 100), load, zoom);
  }

  lemma RunTwo(c: Canvas, a: Action, b: Action)
    requires c.Sized() && c.Covered() && Enabled(a) && Enabled(b)
    ensures After(c, a).scale != 0.0 && Run(c, [a, b]) == After(After(c, a), b)
  {
    hide After;
    ActionKeeps(c, a);
    assert Run(c, []) == c;
    assert [a][..0] == [];
    assert Run(c, [a]) == After(c, a);
    assert [a, b][..1] == [a];
  }

  lemma AnchorAxis(anchor: real, offset: real, scale: real, to: real, now: real)
    requires scale > 0.0 && to > 0.0
    ensures (anchor - now) / to == (anchor - offset) / scale <==> now == anchor - (anchor - offset) * (to / scale)
  {
    var point := (anchor - offset) / scale;
    DivideLess(anchor - now, point, to);
    Commute(anchor - offset, to, scale);
  }

  lemma Commute(a: real, b: real, c: real)
    requires c > 0.0
    ensures a / c * b == a * (b / c)
  {
    var p, q := a / c, b / c;
    assert p * c == a && q * c == b;
    assert p * (q * c) == p * c * q;
  }

  /** A zoom never leaves the scale above MAX_ZOOM_FACTOR times the covering one; a resize can. */
  lemma ZoomLimit(c: Canvas, anchor: Point, factor: real, width: int, height: int)
    requires c.Sized() && c.image.Loaded() && width > 0 && height > 0
    ensures c.ZoomedAt(anchor, factor).scale <= c.CoverMinScale() * MAX_ZOOM_FACTOR
    ensures var r := c.Resized(width, height);
            r.scale <= r.CoverMinScale() * MAX_ZOOM_FACTOR <==> c.scale <= r.CoverMinScale() * MAX_ZOOM_FACTOR
  {
    hide ClampAxis, CropRadius, CoverScale, FuzzyEqual;
    ZoomScaleAtLeast(c, factor);
    ScaleCovers(c.(width := width, height := height));
  }

  lemma Inverse(a: real, b: real)
    requires a > 0.0 && b > 0.0
    ensures a / b * (b / a) == 1.0
  {
    Commute(a, b / a, b);
    assert b / a * a == b;
    var p := a / b;
    assert p * b == a;
    Commute(b, p, a);
  }

  lemma BackAgain(anchor: real, offset: real, scale: real, to: real)
    requires scale > 0.0 && to > 0.0
    ensures var now := anchor - (anchor - offset) * (to / scale);
            anchor - (anchor - now) * (scale / to) == offset
  {
    var d, p, q := anchor - offset, to / scale, scale / to;
    Inverse(to, scale);
    assert d * p * q == d * (p * q);
  }

  /**
   Zooming one way and back about the same anchor restores the canvas, if neither the limits nor clamping
   interfered on the way.
  */
  lemma ZoomUndone(c: Canvas, anchor: Point, factor: real)
    requires c.Sized() && c.image.Loaded() && c.Clamped() == c && factor > 0.0
    requires c.CoverMinScale() <= c.scale <= c.CoverMinScale() * MAX_ZOOM_FACTOR
    requires c.ZoomScale(factor) == c.scale * factor && !FuzzyEqual(c.scale, c.scale * factor)
    requires c.scale * factor > 0.0
    requires c.Rescaled(anchor, c.scale * factor).Clamped() == c.Rescaled(anchor, c.scale * factor)
    ensures c.ZoomedAt(anchor, factor).ZoomedAt(anchor, 1.0 / factor) == c
  {
    hide ClampAxis, CropRadius, CoverScale, FuzzyEqual, Canvas.ZoomScale, Canvas.Rescaled, Canvas.Clamped;
    var to := c.scale * factor;
    var moved := c.Rescaled(anchor, to);
    ScaleBack(c, factor);
    FuzzySymmetric(c.scale, to);
    RescaledBack(c, anchor, to);
    assert moved.image == c.image && moved.ZoomScale(1.0 / factor) == c.scale;
  }

  lemma FuzzySymmetric(a: real, b: real)
    ensures FuzzyEqual(a, b) == FuzzyEqual(b, a)
  {
  }

  lemma ScaleBack(c: Canvas, factor: real)
    requires factor > 0.0 && c.CoverMinScale() <= c.scale <= c.CoverMinScale() * MAX_ZOOM_FACTOR
    ensures forall d: Canvas :: d.CoverMinScale() == c.CoverMinScale() && d.scale == c.scale * factor ==>
              d.ZoomScale(1.0 / factor) == c.scale
  {
    hide CoverScale;
    var to := c.scale * factor;
    DivideLess(to, c.scale, factor);
    Commute(to, 1.0, factor);
  }

  lemma RescaledBack(c: Canvas, anchor: Point, to: real)
    requires c.scale > 0.0 && to > 0.0
    ensures c.Rescaled(anchor, to).Rescaled(anchor, c.scale) == c
    ensures c.Rescaled(anchor, to) == c.(scale := to, offset := c.Rescaled(anchor, to).offset)
  {
    BackAgain(anchor.x, c.offset.x, c.scale, to);
    BackAgain(anchor.y, c.offset.y, c.scale, to);
  }

  /** The widget. Every handler turns the canvas into what the action makes of it, and keeps the crop covered. */
  class AvatarCropCanvas {
    var image: Image
    var width: int
    var height: int
    var scale: real
    var offset: Point
    var dragging: bool
    var lastMousePos: Point

    function Value(): Canvas
      reads this
    {
      Canvas(image, width, height, scale, offset)
    }

    predicate Valid()
      reads this
    {
      Value().Sized() && Value().Covered()
    }

    constructor (width: int, height: int)
      requires width > 0 && height > 0
      ensures Valid() && Value() == Fresh(width, height) && !dragging
    {
      image, scale, offset := Null, 1.0, Point(0.0, 0.0);
      this.width, this.height := width, height;
      dragging, lastMousePos := false, Point(0.0, 0.0);
    }

    method SetImage(image: Image)
      requires Valid() && Enabled(Load(image))
      modifies this`image, this`scale, this`offset
      ensures Valid() && Value() == After(old(Value()), Load(image))
    {
      ActionKeeps(Value(), Load(image));
      this.image := image;
      ResetTransform();
    }

    method ResetTransform()
      requires image.Null? || image.Loaded()
      modifies this`scale, this`offset
      ensures Value() == old(Value()).Reset()
    {
      if image.Null? {
        scale, offset := 1.0, Point(0.0, 0.0);
        return;
      }
      scale := CoverScale(image, width, height);
      var draw := Value().Draw();
      var center := Value().Center();
      offset := Point(center.x - draw.x * 0.5, center.y - draw.y * 0.5);
      ClampOffset();
    }

    method ClampOffset()
      modifies this`offset
      ensures Value() == old(Value()).Clamped()
    {
      if image.Null? {
        return;
      }
      var radius := CropRadius(width, height);
      var draw := Value().Draw();
      var center := Value().Center();
      if draw.x <= radius * 2.0 + SLACK {
        offset := offset.(x := center.x - draw.x * 0.5);
      } else {
        offset := offset.(x := Bound(center.x + radius - draw.x, offset.x, center.x - radius));
      }
      if draw.y <= radius * 2.0 + SLACK {
        offset := offset.(y := center.y - draw.y * 0.5);
      } else {
        offset := offset.(y := Bound(center.y + radius - draw.y, offset.y, center.y - radius));
      }
    }

    method ZoomAt(anchor: Point, factor: real)
      requires Valid()
      modifies this`scale, this`offset
      ensures Value() == After(old(Value()), Zoom(anchor, factor)) && Valid()
    {
      hide FuzzyEqual, CoverScale, Canvas.Clamped, Canvas.Covered;
      ghost var c := Value();
      ActionKeeps(c, Zoom(anchor, factor));
      if image.Null? {
        return;
      }
      var oldScale := scale;
      var minScale := CoverScale(image, width, height);
      assert c.ZoomScale(factor) == Bound(minScale, scale * factor, minScale * MAX_ZOOM_FACTOR);
      scale := Bound(minScale, scale * factor, minScale * MAX_ZOOM_FACTOR);
      if FuzzyEqual(oldScale, scale) {
        ClampOffset();
        return;
      }
      var ratio := scale / oldScale;
      offset := Point(anchor.x - (anchor.x - offset.x) * ratio, anchor.y - (anchor.y - offset.y) * ratio);
      assert Value() == c.Rescaled(anchor, scale);
      ClampOffset();
    }

    method MousePress(leftButton: bool, position: Point)
      requires Valid()
      modifies this`dragging, this`lastMousePos
      ensures Valid() && Value() == old(Value())
      ensures dragging == (old(dragging) || (leftButton && image.Image?))
      ensures lastMousePos == if leftButton && image.Image? then position else old(lastMousePos)
    {
      if leftButton && image.Image? {
        dragging, lastMousePos := true, position;
      }
    }

    method MouseMove(position: Point)
      requires Valid()
      modifies this`offset, this`lastMousePos
      ensures Valid()
      ensures Value() == if dragging
                         then After(old(Value()), Drag(Point(position.x - old(lastMousePos).x,
                                                             position.y - old(lastMousePos).y)))
                         else old(Value())
      ensures lastMousePos == if dragging then position else old(lastMousePos)
      ensures dragging && image.Image? ==>
                var asked := Point(old(offset).x + (position.x - old(lastMousePos).x),
                                   old(offset).y + (position.y - old(lastMousePos).y));
                && NearestTo(Value(), asked)
                && (Value().ImagePoint(position) == old(Value().ImagePoint(lastMousePos))
                    <==> RestsAt(old(Value()), asked))
    {
      hide Nearest, Rests, ClampAxis, CoverScale;
      if dragging {
        if image.Image? {
          DragMoves(Value(), lastMousePos, Point(position.x - lastMousePos.x, position.y - lastMousePos.y));
        }
        var delta := Point(position.x - lastMousePos.x, position.y - lastMousePos.y);
        ActionKeeps(Value(), Drag(delta));
        offset := Point(offset.x + delta.x, offset.y + delta.y);
        lastMousePos := position;
        ClampOffset();
      }
    }

    method MouseRelease(leftButton: bool)
      requires Valid()
      modifies this`dragging
      ensures Valid() && Value() == old(Value()) && dragging == (old(dragging) && !leftButton)
    {
      if leftButton && dragging {
        dragging := false;
      }
    }

    method Wheel(up: bool, position: Point)
      requires Valid()
      modifies this`scale, this`offset
      ensures Valid()
      ensures Value() == if image.Null? then old(Value())
                         else After(old(Value()), Zoom(position, if up then WHEEL_FACTOR else 1.0 / WHEEL_FACTOR))
    {
      if image.Null? {
        return;
      }
      var factor := if up then WHEEL_FACTOR else 1.0 / WHEEL_FACTOR;
      ZoomAt(position, factor);
    }

    method ResizeEvent(width: int, height: int)
      requires Valid() && width > 0 && height > 0
      modifies this`width, this`height, this`scale, this`offset
      ensures Valid() && Value() == After(old(Value()), Resize(width, height))
    {
      hide CoverScale, ClampAxis;
      ActionKeeps(Value(), Resize(width, height));
      this.width, this.height := width, height;
      if image.Image? {
        var minScale := CoverScale(image, width, height);
        if scale < minScale {
          scale := minScale;
        }
        ClampOffset();
      }
    }

    /** The source square of croppedImage, left, top and side, or nothing when there is nothing to export. */
    method CropSource(outputSize: int) returns (r: Option<(Point, real)>)
      requires Valid()
      ensures r.None? <==> image.Null? || outputSize <= 0
      ensures r.Some? ==>
                var (at, side) := r.value;
                && side > 0.0
                && 0.0 <= at.x && at.x + side <= image.width as real
                && 0.0 <= at.y && at.y + side <= image.height as real
                && Value().ImagePoint(Value().Center()) == Point(at.x + side / 2.0, at.y + side / 2.0)
                && Value().ImagePoint(Value().CropCorner(-1.0)) == at
                && Value().ImagePoint(Value().CropCorner(1.0)) == Point(at.x + side, at.y + side)
    {
      if image.Null? || outputSize <= 0 {
        return None;
      }
      SourceInside(Value());
      SourceCentered(Value());
      SourceCorners(Value());
      var radius := CropRadius(width, height);
      var center := Value().Center();
      var at := Point((center.x - radius - offset.x) / scale, (center.y - radius - offset.y) / scale);
      return Some((at, radius * 2.0 / scale));
    }
  }

  /** The corners of what is exported are the image points at the corners of the crop square. */
  lemma SourceCorners(c: Canvas)
    requires c.Sized()
    ensures var (at, side) := c.Source();
            && c.ImagePoint(c.CropCorner(-1.0)) == at
            && c.ImagePoint(c.CropCorner(1.0)) == Point(at.x + side, at.y + side)
  {
    SumOver(c.Center().x - c.Radius() - c.offset.x, c.Radius() * 2.0, c.scale);
    SumOver(c.Center().y - c.Radius() - c.offset.y, c.Radius() * 2.0, c.scale);
  }

  /** What is exported is centred on the image point in the middle of the widget. */
  lemma SourceCentered(c: Canvas)
    requires c.Sized()
    ensures var (at, side) := c.Source();
            c.ImagePoint(c.Center()) == Point(at.x + side / 2.0, at.y + side / 2.0)
  {
    var (at, side) := c.Source();
    DivideLess(c.Radius() * 2.0, side, c.scale);
    DivideLess(c.Radius(), side / 2.0, c.scale);
    SumOver(c.Center().x - c.Radius() - c.offset.x, c.Radius(), c.scale);
    SumOver(c.Center().y - c.Radius() - c.offset.y, c.Radius(), c.scale);
  }
}
