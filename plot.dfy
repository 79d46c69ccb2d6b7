/** The `Plot` builder of src/lib.rs: its settings, the builder setters,
    `digest_tick_settings`, and the geometry `plot` and `image` hand to the
    PDF backend. */
module PdfPlot {
  import opened Wrappers
  import opened Numeric
  import opened Labels
  import opened Axes
  import opened Canvas
  import opened Colors

  datatype Marker = Dot

  datatype LineStyle = Solid

  /** The settings of a plot, as one value. */
  datatype PlotConfig = PlotConfig(
    width: real,
    height: real,
    fontSize: real,
    tickLength: real,
    xTickInterval: Option<real>,
    yTickInterval: Option<real>,
    xlim: Option<(real, real)>,
    ylim: Option<(real, real)>,
    xlabel: Option<string>,
    ylabel: Option<string>,
    marker: Option<Marker>,
    linestyle: Option<LineStyle>)

  /** The settings of `Plot::new`: an 810 x 630 page, 20-point font, ticks 10
      long, nothing pinned, no marker and solid lines. */
  const DefaultConfig := PlotConfig(810.0, 630.0, 20.0, 10.0, None, None, None, None, None, None, None, Some(Solid))

  /** The assertions of `digest_tick_settings` and of `image`, reported as
      errors. */
  datatype PlotError = XLimitUndetermined | YLimitUndetermined | ImageSizeMismatch

  function XSettings(cfg: PlotConfig): AxisSettings
  {
    AxisSettings(cfg.xTickInterval, cfg.xlim)
  }

  function YSettings(cfg: PlotConfig): AxisSettings
  {
    AxisSettings(cfg.yTickInterval, cfg.ylim)
  }

  /** The data and settings `digest_tick_settings` can plan without dividing
      by zero: see `WellPosed`. */
  predicate Posed(cfg: PlotConfig, xs: seq<Float>, ys: seq<Float>)
  {
    var n := ZipLength(xs, ys);
    && WellPosed(XSettings(cfg), FoldMin(xs[..n]), FoldMax(xs[..n]))
    && WellPosed(YSettings(cfg), FoldMin(ys[..n]), FoldMax(ys[..n]))
  }

  /** What `digest_tick_settings` decides for both axes from the scanned
      extents; the x assertion is checked first. */
  function PlansFrom(cfg: PlotConfig, toU64: real -> nat, lo: FPoint, hi: FPoint): (r: Result<(AxisPlan, AxisPlan), PlotError>)
    requires WellPosed(XSettings(cfg), lo.x, hi.x) && WellPosed(YSettings(cfg), lo.y, hi.y)
    ensures r.Ok? ==> r.value.0.numTicks >= 1 && r.value.0.interval != 0.0
    ensures r.Ok? ==> r.value.1.numTicks >= 1 && r.value.1.interval != 0.0
    ensures r == Err(XLimitUndetermined) <==> !Determined(XSettings(cfg), lo.x, hi.x)
    ensures r == Err(YLimitUndetermined) <==>
      Determined(XSettings(cfg), lo.x, hi.x) && !Determined(YSettings(cfg), lo.y, hi.y)
    ensures r.Ok? && cfg.xlim.Some? ==> r.value.0.limits == cfg.xlim.value
    ensures r.Ok? && cfg.ylim.Some? ==> r.value.1.limits == cfg.ylim.value
    ensures r.Ok? && IsToU64(toU64) ==> LastTickWithinInterval(r.value.0) && LastTickWithinInterval(r.value.1)
  {
    var px := PlanAxis(XSettings(cfg), lo.x, hi.x, toU64);
    var py := PlanAxis(YSettings(cfg), lo.y, hi.y, toU64);
    if px.None? then Err(XLimitUndetermined)
    else if py.None? then Err(YLimitUndetermined)
    else Ok((px.value, py.value))
  }

  /** What `digest_tick_settings` decides for both axes from the data. */
  function DigestPlans(cfg: PlotConfig, toU64: real -> nat, xs: seq<Float>, ys: seq<Float>): (r: Result<(AxisPlan, AxisPlan), PlotError>)
    requires Posed(cfg, xs, ys)
    ensures r.Ok? ==> r.value.0.numTicks >= 1 && r.value.0.interval != 0.0
    ensures r.Ok? ==> r.value.1.numTicks >= 1 && r.value.1.interval != 0.0
    ensures var n := ZipLength(xs, ys);
      r == Err(XLimitUndetermined) <==> cfg.xlim.None? && !(FoldMin(xs[..n]).Finite? && FoldMax(xs[..n]).Finite?)
    ensures var n := ZipLength(xs, ys);
      r == Err(YLimitUndetermined) <==>
        && (cfg.xlim.Some? || (FoldMin(xs[..n]).Finite? && FoldMax(xs[..n]).Finite?))
        && cfg.ylim.None? && !(FoldMin(ys[..n]).Finite? && FoldMax(ys[..n]).Finite?)
    ensures r.Ok? && cfg.xlim.Some? ==> r.value.0.limits == cfg.xlim.value
    ensures r.Ok? && cfg.ylim.Some? ==> r.value.1.limits == cfg.ylim.value
  {
    var n := ZipLength(xs, ys);
    PlansFrom(cfg, toU64, FPoint(FoldMin(xs[..n]), FoldMin(ys[..n])), FPoint(FoldMax(xs[..n]), FoldMax(ys[..n])))
  }

  /** A new axis for a plan, with its tick labels written and no margin yet. */
  method NewAxis(p: AxisPlan) returns (a: Axis)
    requires p.numTicks >= 1 && p.interval != 0.0
    ensures fresh(a)
    ensures a.limits == p.limits && a.tickInterval == p.interval && a.numTicks == p.numTicks
    ensures a.tickLabels == PlanLabels(p) && a.margin == 0.0
  {
    a := new Axis(p);
    a.TickLabels();
  }

  /** Planning fails exactly when an axis has no pinned limits and its data
      (the pairs the zip yields) have no finite value or hold an infinity;
      NaN values are ignored. */
  lemma DigestFailsWithoutExtent(cfg: PlotConfig, toU64: real -> nat, xs: seq<Float>, ys: seq<Float>)
    requires Posed(cfg, xs, ys)
    ensures var n := ZipLength(xs, ys);
      var xOpen := cfg.xlim.None? && (|FiniteValues(xs[..n])| == 0 || PosInf in xs[..n] || NegInf in xs[..n]);
      var yOpen := cfg.ylim.None? && (|FiniteValues(ys[..n])| == 0 || PosInf in ys[..n] || NegInf in ys[..n]);
      && (DigestPlans(cfg, toU64, xs, ys) == Err(XLimitUndetermined) <==> xOpen)
      && (DigestPlans(cfg, toU64, xs, ys) == Err(YLimitUndetermined) <==> !xOpen && yOpen)
      && (DigestPlans(cfg, toU64, xs, ys).Ok? <==> !xOpen && !yOpen)
  {
    var n := ZipLength(xs, ys);
    DataExtentFinite(xs[..n]);
    DataExtentFinite(ys[..n]);
  }

  /** An image passes no data to `digest_tick_settings`, so it needs both
      limits pinned. */
  lemma ImageNeedsPinnedLimits(cfg: PlotConfig, toU64: real -> nat)
    requires Posed(cfg, [], [])
    ensures DigestPlans(cfg, toU64, [], []).Ok? <==> cfg.xlim.Some? && cfg.ylim.Some?
    ensures cfg.xlim.None? ==> DigestPlans(cfg, toU64, [], []) == Err(XLimitUndetermined)
  {
  }

  /** With both limits pinned and both intervals pinned, the plans are the
      settings themselves, up to the sign of the interval. */
  lemma PinnedPlotUsesSettings(cfg: PlotConfig, toU64: real -> nat, xs: seq<Float>, ys: seq<Float>)
    requires Posed(cfg, xs, ys)
    requires cfg.xlim.Some? && cfg.ylim.Some?
    ensures DigestPlans(cfg, toU64, xs, ys).Ok?
    ensures var r := DigestPlans(cfg, toU64, xs, ys).value;
      && r.0.limits == cfg.xlim.value && r.1.limits == cfg.ylim.value
      && (cfg.xTickInterval.Some? ==> Abs(r.0.interval) == cfg.xTickInterval.value)
      && (cfg.yTickInterval.Some? ==> Abs(r.1.interval) == cfg.yTickInterval.value)
  {
    var n := ZipLength(xs, ys);
    PlanUsesSettings(XSettings(cfg), FoldMin(xs[..n]), FoldMax(xs[..n]), toU64);
    PlanUsesSettings(YSettings(cfg), FoldMin(ys[..n]), FoldMax(ys[..n]), toU64);
  }

  /** The tick labels of a plan. */
  function PlanLabels(p: AxisPlan): (ls: seq<Label>)
    requires p.numTicks >= 1 && p.interval != 0.0
    ensures |ls| == p.numTicks
  {
    TickLabelsOf(p.limits, p.interval, p.numTicks)
  }

  /** The fields of an `Axis` object built for a plan, with its labels and
      the given margin. */
  ghost predicate AxisIs(a: Axis, p: AxisPlan, margin: real)
    reads a
    requires p.numTicks >= 1 && p.interval != 0.0
  {
    && a.limits == p.limits && a.tickInterval == p.interval && a.numTicks == p.numTicks
    && a.tickLabels == PlanLabels(p) && a.margin == margin
  }

  /** The x margin: room for one line of tick labels. */
  function XAxisMargin(cfg: PlotConfig): real
  {
    XMargin(cfg.fontSize, cfg.tickLength)
  }

  /** The y margin for a plan: room for the widest of its labels. */
  function YAxisMargin(cfg: PlotConfig, widthOf: Label -> real, p: AxisPlan): real
    requires p.numTicks >= 1 && p.interval != 0.0
  {
    YMargin(cfg.fontSize, cfg.tickLength, LabelWidths(PlanLabels(p), widthOf))
  }

  /** The width of the last x tick label, kept free at the right edge. */
  function LastLabelWidth(widthOf: Label -> real, labels: seq<Label>): real
    requires |labels| > 0
  {
    widthOf(labels[|labels| - 1])
  }

  /** The canvas maps `plot` draws with, or the assertion that fails. */
  function LineFrame(cfg: PlotConfig, widthOf: Label -> real, toU64: real -> nat, xs: seq<Float>, ys: seq<Float>): (r: Result<Layout, PlotError>)
    requires Posed(cfg, xs, ys)
    ensures r.Ok? <==> DigestPlans(cfg, toU64, xs, ys).Ok?
    ensures r.Err? ==> r.error == DigestPlans(cfg, toU64, xs, ys).error
    ensures r.Ok? ==> var (px, py) := DigestPlans(cfg, toU64, xs, ys).value;
      && r.value.x.lo == px.limits.0 && r.value.x.hi == px.limits.1
      && r.value.y.lo == py.limits.0 && r.value.y.hi == py.limits.1
      && r.value.x.offset == YAxisMargin(cfg, widthOf, py)
      && r.value.x.offset + r.value.x.length == cfg.width - LastLabelWidth(widthOf, PlanLabels(px))
      && r.value.y.offset == XAxisMargin(cfg)
      && r.value.y.offset + r.value.y.length == cfg.height - cfg.fontSize
  {
    match DigestPlans(cfg, toU64, xs, ys)
    case Err(e) => Err(e)
    case Ok((px, py)) =>
      Ok(LineLayout(px.limits, py.limits, XAxisMargin(cfg), YAxisMargin(cfg, widthOf, py),
                    cfg.width, cfg.height, cfg.fontSize, LastLabelWidth(widthOf, PlanLabels(px))))
  }

  /** The resized page and canvas maps of `image`, which plans its axes
      without data, or the assertion that fails. */
  function SquareFrame(cfg: PlotConfig, widthOf: Label -> real, toU64: real -> nat): (r: Result<ImageFrame, PlotError>)
    requires Posed(cfg, [], [])
    ensures r.Ok? <==> cfg.xlim.Some? && cfg.ylim.Some?
    ensures r == Err(XLimitUndetermined) <==> cfg.xlim.None?
    ensures r.Ok? ==>
      && r.value.layout.x.lo == cfg.xlim.value.0 && r.value.layout.x.hi == cfg.xlim.value.1
      && r.value.layout.y.lo == cfg.ylim.value.0 && r.value.layout.y.hi == cfg.ylim.value.1
  {
    match DigestPlans(cfg, toU64, [], [])
    case Err(e) => Err(e)
    case Ok((px, py)) =>
      Ok(ImageLayout(px.limits, py.limits, XAxisMargin(cfg), YAxisMargin(cfg, widthOf, py),
                     cfg.width, cfg.height, cfg.fontSize, LastLabelWidth(widthOf, PlanLabels(px))))
  }

  /** The image area is a square, and the resized page is that square plus
      the margins plus one font size, no taller than before. */
  lemma SquareFrameSquare(cfg: PlotConfig, widthOf: Label -> real, toU64: real -> nat)
    requires Posed(cfg, [], []) && SquareFrame(cfg, widthOf, toU64).Ok?
    ensures var f := SquareFrame(cfg, widthOf, toU64).value;
      && f.layout.x.length == f.layout.y.length
      && f.layout.x.offset + f.layout.x.length + cfg.fontSize == f.width
      && f.layout.y.offset + f.layout.y.length + cfg.fontSize == f.height
      && f.height <= cfg.height
  {
  }

  /** `struct Plot`: the settings the builder setters change, and the two
      backend measurements the model takes as given. */
  class Plot {
    var width: real
    var height: real
    var fontSize: real
    var tickLength: real
    var xTickInterval: Option<real>
    var yTickInterval: Option<real>
    var xlim: Option<(real, real)>
    var ylim: Option<(real, real)>
    var xlabel: Option<string>
    var ylabel: Option<string>
    var marker: Option<Marker>
    var linestyle: Option<LineStyle>

    /** `pdf.width_of`: the width of a label's text in the backend's font. */
    const widthOf: Label -> real
    /** The `to_u64` conversion of the tick count. */
    const toU64: real -> nat

    function Config(): PlotConfig
      reads this
    {
      PlotConfig(width, height, fontSize, tickLength, xTickInterval, yTickInterval,
                 xlim, ylim, xlabel, ylabel, marker, linestyle)
    }

    /** `Plot::new`. */
    constructor (widthOf: Label -> real, toU64: real -> nat)
      ensures Config() == DefaultConfig
      ensures this.widthOf == widthOf && this.toU64 == toU64
    {
      width := 810.0;
      height := 630.0;
      fontSize := 20.0;
      tickLength := 10.0;
      xTickInterval := None;
      yTickInterval := None;
      xlim := None;
      ylim := None;
      xlabel := None;
      ylabel := None;
      marker := None;
      linestyle := Some(Solid);
      this.widthOf := widthOf;
      this.toU64 := toU64;
    }

    method Ylim(min: real, max: real) returns (self: Plot)
      modifies this
      ensures self == this
      ensures Config() == old(Config()).(ylim := Some((min, max)))
    {
      ylim := Some((min, max));
      self := this;
    }

    method Xlim(min: real, max: real) returns (self: Plot)
      modifies this
      ensures self == this
      ensures Config() == old(Config()).(xlim := Some((min, max)))
    {
      xlim := Some((min, max));
      self := this;
    }

    method Xlabel(text: string) returns (self: Plot)
      modifies this
      ensures self == this
      ensures Config() == old(Config()).(xlabel := Some(text))
    {
      xlabel := Some(text);
      self := this;
    }

    method Ylabel(text: string) returns (self: Plot)
      modifies this
      ensures self == this
      ensures Config() == old(Config()).(ylabel := Some(text))
    {
      ylabel := Some(text);
      self := this;
    }

    method TickLength(length: real) returns (self: Plot)
      modifies this
      ensures self == this
      ensures Config() == old(Config()).(tickLength := length)
    {
      tickLength := length;
      self := this;
    }

    method XTickInterval(interval: real) returns (self: Plot)
      modifies this
      ensures self == this
      ensures Config() == old(Config()).(xTickInterval := Some(interval))
    {
      xTickInterval := Some(interval);
      self := this;
    }

    method YTickInterval(interval: real) returns (self: Plot)
      modifies this
      ensures self == this
      ensures Config() == old(Config()).(yTickInterval := Some(interval))
    {
      yTickInterval := Some(interval);
      self := this;
    }

    method Marker(marker: Option<Marker>) returns (self: Plot)
      modifies this
      ensures self == this
      ensures Config() == old(Config()).(marker := marker)
    {
      this.marker := marker;
      self := this;
    }

    method Linestyle(style: Option<LineStyle>) returns (self: Plot)
      modifies this
      ensures self == this
      ensures Config() == old(Config()).(linestyle := style)
    {
      linestyle := style;
      self := this;
    }

    /** `digest_tick_settings`: the two axes, with their labels and margins,
      or the assertion that fails. */
    method DigestTickSettings(xs: seq<Float>, ys: seq<Float>) returns (r: Result<(Axis, Axis), PlotError>)
      requires Posed(Config(), xs, ys)
      ensures DigestPlans(Config(), toU64, xs, ys).Err? ==>
        r.Err? && r.error == DigestPlans(Config(), toU64, xs, ys).error
      ensures DigestPlans(Config(), toU64, xs, ys).Ok? ==>
        var (px, py) := DigestPlans(Config(), toU64, xs, ys).value;
        && r.Ok? && fresh(r.value.0) && fresh(r.value.1)
        && AxisIs(r.value.0, px, XAxisMargin(Config()))
        && AxisIs(r.value.1, py, YAxisMargin(Config(), widthOf, py))
    {
      var cfg := Config();
      var lo, hi := ScanExtents(xs, ys);
      var plans := PlansFrom(cfg, toU64, lo, hi);
      if plans.Err? {
        return Err(plans.error);
      }
      var (px, py) := plans.value;
      var xaxis := NewAxis(px);
      xaxis.margin := XMargin(fontSize, tickLength);
      var yaxis := NewAxis(py);
      yaxis.margin := YMargin(fontSize, tickLength, LabelWidths(yaxis.tickLabels, widthOf));
      return Ok((xaxis, yaxis));
    }

    /** `plot`: the two canvas maps the data series and the axes are drawn
      with. */
    method LinePlot(xs: seq<Float>, ys: seq<Float>) returns (r: Result<Layout, PlotError>)
      requires Posed(Config(), xs, ys)
      ensures r == LineFrame(Config(), widthOf, toU64, xs, ys)
    {
      var axes := DigestTickSettings(xs, ys);
      if axes.Err? {
        return Err(axes.error);
      }
      var (xaxis, yaxis) := axes.value;
      r := Ok(LineLayout(xaxis.limits, yaxis.limits, xaxis.margin, yaxis.margin,
                         width, height, fontSize, LastLabelWidth(widthOf, xaxis.tickLabels)));
    }

    /** `image`: the RGB buffer of the cells and the canvas maps of the
      square image area; the page is shrunk around that square. */
    method Image(data: seq<Float>, imageWidth: nat, imageHeight: nat, cmap: seq<Rgb>)
      returns (r: Result<(seq<Byte>, Layout), PlotError>)
      requires ValidColormap(cmap)
      requires Posed(Config(), [], [])
      modifies this
      ensures imageWidth * imageHeight != |data| ==> r == Err(ImageSizeMismatch) && Config() == old(Config())
      ensures imageWidth * imageHeight == |data| && SquareFrame(old(Config()), widthOf, toU64).Err? ==>
        r == Err(SquareFrame(old(Config()), widthOf, toU64).error) && Config() == old(Config())
      ensures imageWidth * imageHeight == |data| && SquareFrame(old(Config()), widthOf, toU64).Ok? ==>
        var f := SquareFrame(old(Config()), widthOf, toU64).value;
        && r == Ok((ImageBytes(data, cmap), f.layout))
        && Config() == old(Config()).(width := f.width, height := f.height)
    {
      if imageWidth * imageHeight != |data| {
        return Err(ImageSizeMismatch);
      }
      var bytes := Colorize(data, cmap);
      var layout := SquarePage();
      if layout.Err? {
        return Err(layout.error);
      }
      r := Ok((bytes, layout.value));
    }

    /** The second half of `image`: the axes planned without data, and the
        page shrunk around the square plot area. */
    method SquarePage() returns (r: Result<Layout, PlotError>)
      requires Posed(Config(), [], [])
      modifies this
      ensures SquareFrame(old(Config()), widthOf, toU64).Err? ==>
        r == Err(SquareFrame(old(Config()), widthOf, toU64).error) && Config() == old(Config())
      ensures SquareFrame(old(Config()), widthOf, toU64).Ok? ==>
        var f := SquareFrame(old(Config()), widthOf, toU64).value;
        && r == Ok(f.layout)
        && Config() == old(Config()).(width := f.width, height := f.height)
    {
      var axes := DigestTickSettings([], []);
      if axes.Err? {
        return Err(axes.error);
      }
      var (xaxis, yaxis) := axes.value;
      var f := SquareOf(xaxis, yaxis);
      Resize(f.width, f.height);
      r := Ok(f.layout);
    }

    /** `self.height = ...; self.width = ...;`: the page size changes and
        nothing else. */
    method Resize(w: real, h: real)
      modifies this
      ensures Config() == old(Config()).(width := w, height := h)
    {
      height := h;
      width := w;
    }

    /** `plot_size` and the new page size of `image`, from the planned axes. */
    method SquareOf(xaxis: Axis, yaxis: Axis) returns (f: ImageFrame)
      requires Posed(Config(), [], []) && DigestPlans(Config(), toU64, [], []).Ok?
      requires var (px, py) := DigestPlans(Config(), toU64, [], []).value;
        && AxisIs(xaxis, px, XAxisMargin(Config()))
        && AxisIs(yaxis, py, YAxisMargin(Config(), widthOf, py))
      ensures SquareFrame(Config(), widthOf, toU64) == Ok(f)
    {
      f := ImageLayout(xaxis.limits, yaxis.limits, xaxis.margin, yaxis.margin,
                       width, height, fontSize, LastLabelWidth(widthOf, xaxis.tickLabels));
    }
  }
}
