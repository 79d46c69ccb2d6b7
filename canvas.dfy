/** The data-to-canvas maps of `plot` and `image` in src/lib.rs (the
    `to_canvas_x` and `to_canvas_y` closures) and the page geometry around
    them: the plot area of a line plot, and the square plot area of an image
    with the page resized to fit it. */
module Canvas {
  import opened Numeric

  /** An affine map taking the data interval [lo, hi] onto the canvas
      interval [offset, offset + length]. */
  datatype CanvasMap = CanvasMap(lo: real, hi: real, length: real, offset: real)

  /** `((v - lo) * (length / (hi - lo))) + offset`. */
  function ToCanvas(m: CanvasMap, v: real): (c: real)
    requires m.lo != m.hi
    ensures Between(v, m.lo, m.hi) && m.length >= 0.0 ==> m.offset <= c <= m.offset + m.length
  {
    var k := m.length / (m.hi - m.lo);
    ScaleWithin(v - m.lo, m.hi - m.lo, m.length);
    (v - m.lo) * k + m.offset
  }

  /** v lies between a and b, in either order. */
  predicate Between(v: real, a: real, b: real)
  {
    (a <= v <= b) || (b <= v <= a)
  }

  /** A part a of a whole d, of the same sign, scales a length l >= 0 into
      [0, l]. */
  lemma ScaleWithin(a: real, d: real, l: real)
    requires d != 0.0
    ensures Between(a, 0.0, d) && l >= 0.0 ==> 0.0 <= a * (l / d) <= l
  {
    if Between(a, 0.0, d) && l >= 0.0 {
      var t := a / d;
      assert 0.0 <= t <= 1.0;
      assert a * (l / d) == t * l;
    }
  }

  /** The inverse map, from canvas coordinates back to data. */
  function FromCanvas(m: CanvasMap, c: real): (v: real)
    requires m.lo != m.hi && m.length != 0.0
    ensures c == m.offset ==> v == m.lo
    ensures c == m.offset + m.length ==> v == m.hi
  {
    (c - m.offset) * ((m.hi - m.lo) / m.length) + m.lo
  }

  /** The first limit lands on the offset and the second one a full length
      further. */
  lemma CanvasAnchors(m: CanvasMap)
    requires m.lo != m.hi
    ensures ToCanvas(m, m.lo) == m.offset
    ensures ToCanvas(m, m.hi) == m.offset + m.length
  {
    var k := m.length / (m.hi - m.lo);
    assert (m.hi - m.lo) * k == m.length;
  }

  /** Mapping to the canvas and back is the identity. */
  lemma CanvasRoundTrip(m: CanvasMap, v: real)
    requires m.lo != m.hi && m.length != 0.0
    ensures FromCanvas(m, ToCanvas(m, v)) == v
  {
    var d := m.hi - m.lo;
    var k := m.length / d;
    var r := d / m.length;
    assert k * r == 1.0;
    assert ToCanvas(m, v) - m.offset == (v - m.lo) * k;
    assert ((v - m.lo) * k) * r == (v - m.lo) * (k * r);
  }

  /** With increasing limits and a positive length, the map preserves order. */
  lemma CanvasMonotone(m: CanvasMap, a: real, b: real)
    requires m.lo < m.hi && m.length > 0.0 && a < b
    ensures ToCanvas(m, a) < ToCanvas(m, b)
  {
    var k := m.length / (m.hi - m.lo);
    assert k > 0.0;
    assert (b - m.lo) * k - (a - m.lo) * k == (b - a) * k;
  }

  /** The map is affine: the midpoint of two values lands on the midpoint of
      their images. */
  lemma CanvasMidpoint(m: CanvasMap, a: real, b: real)
    requires m.lo != m.hi
    ensures ToCanvas(m, (a + b) / 2.0) == (ToCanvas(m, a) + ToCanvas(m, b)) / 2.0
  {
    var k := m.length / (m.hi - m.lo);
    assert ((a + b) / 2.0 - m.lo) * k == ((a - m.lo) * k + (b - m.lo) * k) / 2.0;
  }

  /** The two maps of a plot. */
  datatype Layout = Layout(x: CanvasMap, y: CanvasMap)

  /** The plot area of `plot`: the y margin and the width of the last x tick
      label are taken from the page width, the x margin and one font size
      from the page height. */
  function LineLayout(xlim: (real, real), ylim: (real, real), xMargin: real, yMargin: real,
                      width: real, height: real, fontSize: real, lastLabelWidth: real): (l: Layout)
    ensures l.x.lo == xlim.0 && l.x.hi == xlim.1 && l.y.lo == ylim.0 && l.y.hi == ylim.1
    ensures l.x.offset == yMargin && l.x.offset + l.x.length == width - lastLabelWidth
    ensures l.y.offset == xMargin && l.y.offset + l.y.length == height - fontSize
  {
    var plotWidth := width - yMargin - lastLabelWidth;
    var plotHeight := height - xMargin - fontSize;
    Layout(CanvasMap(xlim.0, xlim.1, plotWidth, yMargin), CanvasMap(ylim.0, ylim.1, plotHeight, xMargin))
  }

  /** The plot area of a line plot starts at the margins and ends the width
      of the last x label short of the right edge and one font size short of
      the top edge of the page. */
  lemma LineLayoutFrame(xlim: (real, real), ylim: (real, real), xMargin: real, yMargin: real,
                        width: real, height: real, fontSize: real, lastLabelWidth: real)
    requires xlim.0 != xlim.1 && ylim.0 != ylim.1
    ensures var l := LineLayout(xlim, ylim, xMargin, yMargin, width, height, fontSize, lastLabelWidth);
      && ToCanvas(l.x, xlim.0) == yMargin && ToCanvas(l.x, xlim.1) == width - lastLabelWidth
      && ToCanvas(l.y, ylim.0) == xMargin && ToCanvas(l.y, ylim.1) == height - fontSize
  {
    var l := LineLayout(xlim, ylim, xMargin, yMargin, width, height, fontSize, lastLabelWidth);
    CanvasAnchors(l.x);
    CanvasAnchors(l.y);
  }

  /** `plot_width.min(plot_height)`: the side of the square image area. */
  function SquareSide(plotWidth: real, plotHeight: real): (side: real)
    ensures side <= plotWidth && side <= plotHeight
    ensures side == plotWidth || side == plotHeight
  {
    Min(plotWidth, plotHeight)
  }

  /** The page of an image and its maps: the plot area is the square that
      fits in the line-plot area, and the page shrinks around it. */
  datatype ImageFrame = ImageFrame(width: real, height: real, layout: Layout)

  /** `image`'s geometry: `plot_size`, the new `self.width` and `self.height`,
      and the two maps, both of length `plot_size`. */
  function ImageLayout(xlim: (real, real), ylim: (real, real), xMargin: real, yMargin: real,
                       width: real, height: real, fontSize: real, lastLabelWidth: real): (f: ImageFrame)
    ensures f.layout.x.lo == xlim.0 && f.layout.x.hi == xlim.1
    ensures f.layout.y.lo == ylim.0 && f.layout.y.hi == ylim.1
    ensures f.layout.x.offset == yMargin && f.layout.y.offset == xMargin
    ensures f.layout.x.length == f.layout.y.length
    ensures f.layout.x.length <= width - yMargin - lastLabelWidth
    ensures f.layout.y.length <= height - xMargin - fontSize
    ensures f.layout.x.length == width - yMargin - lastLabelWidth || f.layout.y.length == height - xMargin - fontSize
    ensures f.width == f.layout.x.offset + f.layout.x.length + fontSize
    ensures f.height == f.layout.y.offset + f.layout.y.length + fontSize
  {
    var side := SquareSide(width - yMargin - lastLabelWidth, height - xMargin - fontSize);
    ImageFrame(side + yMargin + fontSize, side + xMargin + fontSize,
      Layout(CanvasMap(xlim.0, xlim.1, side, yMargin), CanvasMap(ylim.0, ylim.1, side, xMargin)))
  }

  /** The image area is a square no larger than the line-plot area, starting
      at the margins and ending one font size short of the right and top
      edges of the resized page. */
  lemma ImageLayoutSquare(xlim: (real, real), ylim: (real, real), xMargin: real, yMargin: real,
                          width: real, height: real, fontSize: real, lastLabelWidth: real)
    requires xlim.0 != xlim.1 && ylim.0 != ylim.1
    ensures var f := ImageLayout(xlim, ylim, xMargin, yMargin, width, height, fontSize, lastLabelWidth);
      var l := LineLayout(xlim, ylim, xMargin, yMargin, width, height, fontSize, lastLabelWidth);
      && ToCanvas(f.layout.x, xlim.1) - ToCanvas(f.layout.x, xlim.0) ==
         ToCanvas(f.layout.y, ylim.1) - ToCanvas(f.layout.y, ylim.0)
      && f.layout.x.length <= l.x.length && f.layout.y.length <= l.y.length
      && ToCanvas(f.layout.x, xlim.0) == yMargin && ToCanvas(f.layout.x, xlim.1) == f.width - fontSize
      && ToCanvas(f.layout.y, ylim.0) == xMargin && ToCanvas(f.layout.y, ylim.1) == f.height - fontSize
  {
    var f := ImageLayout(xlim, ylim, xMargin, yMargin, width, height, fontSize, lastLabelWidth);
    CanvasAnchors(f.layout.x);
    CanvasAnchors(f.layout.y);
  }
}
