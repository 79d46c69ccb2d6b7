# pdfplot in Dafny

A model of the plotting core of `pdfplot`, a small Rust library that draws
line plots and colour-mapped images into PDF files. The model covers:

- how the library chooses a tick interval for an axis (`compute_tick_interval`);
- how it picks the axis limits, tick count and tick direction from the data
  and the user's settings (`digest_tick_settings`);
- how it chooses the format of each tick label (`Axis::tick_labels`);
- the builder settings of `Plot` and its setters;
- the data-to-canvas maps of `plot` and `image`, and the square page
  geometry of `image`;
- the intensity-to-RGB byte loop of `image`;
- how `loadtxt` turns a whitespace-separated text file into columns.

Floating-point numbers are modelled as exact reals, with `Float` adding the
infinities and NaN where the source relies on them (the data scan and the
image cells). The PDF backend is not modelled. The two measurements the core
takes from the backend or from a helper trait are parameters:

- `widthOf`, the width of a label's text;
- `toU64`, the float-to-integer conversion of the tick count.

Modules, one per file:

| module | file | source |
|---|---|---|
| `Wrappers` | wrappers.dfy | `Option` and `Result` |
| `Numeric` | numeric.dfy | `abs`, `round`, `ceil`, `log10` rounding, `f64::max` and `f64::min` |
| `Ticks` | ticks.dfy | `compute_tick_interval` |
| `Labels` | labels.dfy | the formatting rule of `Axis::tick_labels` |
| `Axes` | axes.dfy | `Axis`, the planning of one axis in `digest_tick_settings`, the margins |
| `Canvas` | canvas.dfy | the `to_canvas_x` and `to_canvas_y` closures, the plot area and the square image area |
| `Colors` | colors.dfy | the RGB buffer loop of `image` |
| `PdfPlot` | plot.dfy | `Plot`, its setters, `digest_tick_settings`, `plot` and `image` |
| `Util` | util.dfy | `loadtxt` |

## Model

| member | source | states |
|---|---|---|
| Numeric.Round | src/lib.rs:46-50 | `f64::round`: the result is within one half of x, and halfway cases go away from zero |
| Numeric.Ceil | src/lib.rs:202 | `f64::ceil`: the least integer at or above x |
| Numeric.RoundLog10 | src/lib.rs:37 | `log10().round()` is non-negative from 1 upwards and non-positive below 1 |
| Numeric.RoundLog10Odd | src/lib.rs:37 | rounding log10 is odd: the exponent of 1/x is minus the exponent of x |
| Numeric.RoundLog10Bracket | src/lib.rs:37 | `log10().round()` gives the exponent e for which x / 10^e lies within half a decade of 1 (its square lies in [0.1, 10]) |
| Numeric.FracDigits | src/lib.rs:72-82 | for an interval a in (0, 1), `ceil(abs(log10 a))` is the n with 10^-n <= a < 10^(1-n) |
| Numeric.CeilAbsLog10 | src/lib.rs:89 | `ceil(abs(log10 q))`, characterised by powers of ten on both sides of 1 |
| Numeric.FMax | src/lib.rs:177-178 | `f64::max` returns one of its arguments, the other one when one is NaN |
| Numeric.FMin | src/lib.rs:179-180 | `f64::min` returns one of its arguments, the other one when one is NaN |
| Numeric.SeqMax | src/lib.rs:256-260 | `float_max` of a non-empty list: an upper bound that is one of the elements |
| Ticks.OrderOfMagnitude | src/lib.rs:37 | a positive integer power of ten (m = 10^e for some integer e) within half a decade of abs(range): (abs(range) / m)^2 lies in [0.1, 10] |
| Ticks.Candidates | src/lib.rs:38-44 | five positive candidate intervals, strictly increasing |
| Ticks.TickCount | src/lib.rs:45-51 | the tick count is within one half of range / interval, and not negative for a positive interval |
| Ticks.DistanceToFive | src/lib.rs:56 | the key is the distance of the count from five, zero exactly at five |
| Ticks.FirstClosestToFive | src/lib.rs:53-58 | `min_by_key`: an index whose tick count is closest to five, and no earlier index is as close |
| Ticks.ComputeTickInterval | src/lib.rs:35-60 | the interval is one of the five candidates for 10^round(log10 abs(range)), its tick count is closest to five, and every smaller candidate is strictly farther |
| Ticks.TickIntervalIgnoresSign | src/lib.rs:36 | only the magnitude of the range matters |
| Ticks.TickIntervalIsNice | src/lib.rs:37-44 | the interval is 1, 2 or 5 times a power of ten |
| Ticks.TickIntervalNearFiveTicks | src/lib.rs:45-58 | the chosen interval gives between three and seven ticks for every non-zero range |
| Ticks.TickIntervalOfFour | src/lib.rs:35-60 | a range of 4 gets the interval 1 |
| Ticks.TickIntervalOfSixteen | src/lib.rs:35-60 | a range of 16 gets the interval 5 |
| Ticks.TickIntervalOfTwenty | src/lib.rs:35-60 | a range of 20 gets the interval 5 |
| Labels.TickLabelsOf | src/lib.rs:75-76 | one label per tick; label i has the value `i * tick_interval + limits.0` |
| Labels.ExponentDigits | src/lib.rs:89 | the digit count of the scientific form is at least 1: `ceil(abs(tick_max - tick_precision)) - 1`, or 1 when that is smaller |
| Labels.FormatTick | src/lib.rs:77-93 | the label keeps the tick value. Each of the three regimes as an equivalence: zero is plain; otherwise fixed point exactly when the interval is below 1 or the largest limit is below 10^4; scientific otherwise. The fixed-point digit count reaches the interval's leading decimal place; the scientific digit count is ExponentDigits of the largest limit and the interval |
| Labels.TickLabelsConsistent | src/lib.rs:72-93 | all non-zero labels of one axis share one format |
| Labels.TickLabelsZeroPlain | src/lib.rs:78-79 | a tick at zero is formatted plainly in every regime |
| Labels.MilliIntervalLabels | src/lib.rs:80-82 | an interval of 0.001 on (0, 0.01) gives three decimals, with 0 plain |
| Labels.LargeIntervalLabels | src/lib.rs:86-91 | an interval of 50000 on (0, 10^6) gives scientific notation with one decimal |
| Axes.ZipLength | src/lib.rs:176 | `zip` stops at the shorter of the two inputs |
| Axes.FoldMax | src/lib.rs:177-178 | the running maximum is never NaN, and it is either the starting -inf or one of the values |
| Axes.FoldMin | src/lib.rs:179-180 | the running minimum is never NaN, and it is either the starting +inf or one of the values |
| Axes.ScanExtents | src/lib.rs:166-183 | the loop's minimum and maximum are the folds of `f64::min` and `f64::max` over the zipped pairs |
| Axes.FoldMaxExtent | src/lib.rs:168-181 | the scanned maximum is never NaN. It is +inf exactly when +inf occurs. Otherwise it is finite exactly when a finite value occurs, and then it is the largest finite value |
| Axes.FoldMinExtent | src/lib.rs:172-181 | the mirror image for the scanned minimum |
| Axes.DataExtentFinite | src/lib.rs:185-187 | the extent is finite exactly when a finite value and no infinity occurs; then min <= max |
| Axes.ProvisionalInterval | src/lib.rs:191-197 | the pinned interval, or one of the candidates for the data range; always positive |
| Axes.SnapOutward | src/lib.rs:199-213 | the snapped limits are whole multiples of the interval. Each lies at or outside the data and less than one interval from it |
| Axes.ResolveLimits | src/lib.rs:199-213 | with the interval unpinned, the final limits differ |
| Axes.FinalInterval | src/lib.rs:218-224 | the pinned interval, or a candidate for the final limits' range |
| Axes.Signum | src/lib.rs:230-231 | `signum` is 1 or -1, and -1 exactly for a negative argument (zero gives 1) |
| Axes.PlanAxis | src/lib.rs:164-231 | an axis is planned exactly when its data extent is finite or its limits are pinned. There is at least one tick and the interval is non-zero. The last tick lies less than one interval from `limits.1` |
| Axes.PlanWithin | src/lib.rs:218-231 | the plan keeps the final limits. Its tick count is one more than `to_u64` of the limits' distance over the interval's magnitude. Its last tick is within one interval of `limits.1` |
| Axes.PlanFor | src/lib.rs:226-231 | for final limits and a positive interval: the interval's magnitude is kept, the tick count is one more than `to_u64` of the limits' distance over it, and the last tick is within one interval of `limits.1` |
| Axes.PlanUsesSettings | src/lib.rs:191-213 | pinned limits are used unchanged, and a pinned interval up to its sign. Unpinned limits enclose the data and are whole multiples of the provisional interval |
| Axes.PlanDirection | src/lib.rs:229-231 | the interval's magnitude is the final interval; its sign points from `limits.0` to `limits.1` |
| Axes.ExactTickCount | src/lib.rs:226-227 | limits spanning exactly n intervals give n + 1 ticks |
| Axes.SquaresExtent | src/lib.rs:166-183 | the data of y = x^2 for x = 0..4 span [0, 4] by [0, 16] |
| Axes.SquaresPlanX | src/lib.rs:164-231 | that x axis runs over [0, 4] in steps of 1 with five ticks |
| Axes.SquaresPlanY | src/lib.rs:164-231 | that y axis is snapped out to [0, 20] and runs in steps of 5 with five ticks |
| Axes.Axis.constructor | src/lib.rs:233-239 | a new axis holds the plan, no labels and a zero margin |
| Axes.Axis.TickLabels | src/lib.rs:71-95 | `tick_labels` overwrites the labels with one formatted label per tick and changes nothing else |
| Axes.XMargin | src/lib.rs:242-243 | the x margin is 3.5 font sizes plus the tick length |
| Axes.YMargin | src/lib.rs:254-262 | the y margin is three font sizes plus the tick length plus the widest label: at least each label's width, and equal for one of them |
| Axes.LabelWidths | src/lib.rs:256-259 | the measured width of each label, in order |
| Canvas.ToCanvas | src/lib.rs:376-384 | a value between the two limits, in either order, lands inside the plot area from the margin to the margin plus the plot length |
| Canvas.FromCanvas | src/lib.rs:376-379 | the inverse map takes the two ends of the plot area back to the two limits |
| Canvas.CanvasAnchors | src/lib.rs:376-384 | the first limit maps to the margin, the second limit one plot length further |
| Canvas.CanvasRoundTrip | src/lib.rs:376-379 | the canvas map is invertible: mapping back gives the data value |
| Canvas.CanvasMonotone | src/lib.rs:376-379 | with increasing limits and a positive length, the map preserves order |
| Canvas.CanvasMidpoint | src/lib.rs:376-384 | the map is affine: midpoints go to midpoints |
| Canvas.LineLayout | src/lib.rs:371-384 | the maps run from the axis limits onto a plot area that starts at the margins and ends the last x label's width short of the page width and one font size short of the page height |
| Canvas.LineLayoutFrame | src/lib.rs:371-384 | the line-plot area starts at the margins. It ends the last x label's width short of the right edge and one font size short of the top edge |
| Canvas.SquareSide | src/lib.rs:462 | `plot_size` is the smaller of the two plot dimensions |
| Canvas.ImageLayout | src/lib.rs:459-479 | both maps start at the margins and have the same length, no more than the line-plot area in either direction and equal to it in one. The new page width and height are that square plus the margins plus one font size |
| Canvas.ImageLayoutSquare | src/lib.rs:459-479 | the image area is a square no larger than the line-plot area. It ends one font size short of the right and top edges of the resized page |
| Colors.ChannelByte | src/lib.rs:448-450 | `(c * 255.0) as u8` truncates: b <= 255c < b + 1 |
| Colors.ColorIndex | src/lib.rs:446-447 | the index lies in 0..=255 and is the truncation of (v - min) / (max - min) * 255 when max > min; it is 0 when max == min (NaN cast to 0); the minimum gets 0 and the maximum 255 |
| Colors.ColorIndexMonotone | src/lib.rs:446-447 | a larger value never gets a smaller colour index |
| Colors.Pixel | src/lib.rs:443-451 | a non-finite cell is white; a finite cell takes the colour map entry of its index, the first entry at the minimum and the last at the maximum when they differ |
| Colors.Colorized | src/lib.rs:442-452 | the recursive reference for the pixel buffer holds three bytes per cell; ColorizedCell says which bytes belong to which cell |
| Colors.ImageBytes | src/lib.rs:426 | the buffer holds three bytes per cell |
| Colors.ColorizedCell | src/lib.rs:442-452 | cell k owns bytes 3k, 3k + 1 and 3k + 2 of the buffer |
| Colors.FiniteLow | src/lib.rs:427-439 | the scanned minimum is at most `f64::MAX`, and it is `f64::MAX` or a finite cell |
| Colors.FiniteHigh | src/lib.rs:427-439 | the scanned maximum is at least `f64::MIN`, and it is `f64::MIN` or a finite cell |
| Colors.FiniteBounds | src/lib.rs:427-439 | every finite cell lies between the scanned minimum and maximum, so the index stays in range |
| Colors.NoFiniteCells | src/lib.rs:427-428 | with no finite cell, the scan leaves `f64::MAX` and `f64::MIN` in place |
| Colors.FiniteLowHighExact | src/lib.rs:427-439 | for cells a double can hold, the scan yields the least and the greatest finite cell |
| Colors.Colorize | src/lib.rs:426-452 | the two loops produce the buffer of the cells coloured against their finite minimum and maximum |
| Colors.ColorizeEnds | src/lib.rs:442-452 | non-finite cells are white. The maximum cell takes the last colour and the minimum cell the first. When all finite cells are equal, all take the first colour |
| PdfPlot.PlansFrom | src/lib.rs:185-231 | from the scanned extents: the x assertion fails exactly when x is not determined, the y assertion exactly when x is and y is not. Pinned limits are kept, and each planned axis has a tick and its last tick within one interval of its end |
| PdfPlot.DigestPlans | src/lib.rs:164-231 | from the data: an axis fails exactly when its limits are unpinned and the scanned extent of the zipped data is not finite, x first; pinned limits are kept |
| PdfPlot.DigestFailsWithoutExtent | src/lib.rs:185-187 | planning fails on an axis (x checked first) exactly when its limits are unpinned and its data have no finite value or hold an infinity |
| PdfPlot.ImageNeedsPinnedLimits | src/lib.rs:454 | an image plans its axes without data, so it succeeds exactly when both limits are pinned |
| PdfPlot.PinnedPlotUsesSettings | src/lib.rs:191-224 | with both limits pinned, the axes use them, and pinned intervals up to their sign |
| PdfPlot.NewAxis | src/lib.rs:233-240 | a fresh axis for a plan with its labels written |
| PdfPlot.LineFrame | src/lib.rs:365-384 | fails exactly when planning fails, with its error. Otherwise the maps run from the planned limits onto the area from the y margin to the page width less the last x label, and from the x margin to the page height less one font size |
| PdfPlot.SquareFrame | src/lib.rs:454-479 | succeeds exactly when both limits are pinned, failing on x first; the maps run from the pinned limits |
| PdfPlot.SquareFrameSquare | src/lib.rs:459-479 | the image area is a square, and the new page width and height are the square plus the margins plus one font size, the height at most the old one |
| PdfPlot.Plot.constructor | src/lib.rs:98-117 | the defaults: an 810 x 630 page, font size 20, tick length 10, nothing pinned, solid lines |
| PdfPlot.Plot.Ylim | src/lib.rs:119-122 | sets `ylim` only and returns the same plot |
| PdfPlot.Plot.Xlim | src/lib.rs:124-127 | sets `xlim` only and returns the same plot |
| PdfPlot.Plot.Xlabel | src/lib.rs:129-132 | sets `xlabel` only and returns the same plot |
| PdfPlot.Plot.Ylabel | src/lib.rs:134-137 | sets `ylabel` only and returns the same plot |
| PdfPlot.Plot.TickLength | src/lib.rs:139-142 | sets `tick_length` only and returns the same plot |
| PdfPlot.Plot.XTickInterval | src/lib.rs:144-147 | sets `x_tick_interval` only and returns the same plot |
| PdfPlot.Plot.YTickInterval | src/lib.rs:149-152 | sets `y_tick_interval` only and returns the same plot |
| PdfPlot.Plot.Marker | src/lib.rs:154-157 | sets `marker` only and returns the same plot |
| PdfPlot.Plot.Linestyle | src/lib.rs:159-162 | sets `linestyle` only and returns the same plot |
| PdfPlot.Plot.DigestTickSettings | src/lib.rs:164-265 | reports the failing assertion, x first. Otherwise it returns two fresh axes holding the planned limits, interval, tick count and labels, with the x margin and the y margin of the widest y label |
| PdfPlot.Plot.LinePlot | src/lib.rs:365-384 | the canvas maps of the line plot built from the planned axes, or the failing assertion |
| PdfPlot.Plot.Image | src/lib.rs:417-479 | a size mismatch is reported first, then a planning failure, and neither changes the plot. Otherwise it returns the colour buffer and the square maps, and only the page width and height change |
| PdfPlot.Plot.SquarePage | src/lib.rs:454-479 | the axes planned without data: the failing assertion leaves the plot unchanged, and otherwise the square maps are returned and only the page width and height change |
| PdfPlot.Plot.SquareOf | src/lib.rs:459-468 | the square frame computed from the two planned axes is the one the settings determine |
| PdfPlot.Plot.Resize | src/lib.rs:467-468 | sets the page width and height and nothing else |
| Util.Lines | src/util.rs:3 | `lines()`: no line holds a line feed |
| Util.LinesOfLine | src/util.rs:3 | a non-empty text without a line feed is one line |
| Util.LinesSplit | src/util.rs:3 | a line feed ends the line before it, dropping one carriage return just before it, and splitting goes on after it |
| Util.LinesAt | src/util.rs:3 | the first line feed ends the first line, which loses one carriage return just before the line feed |
| Util.Words | src/util.rs:4 | `split_whitespace()`: every word is non-empty and free of whitespace |
| Util.WordsOfWord | src/util.rs:4 | a text without whitespace is a single word |
| Util.WordsSeparated | src/util.rs:4 | any whitespace character (space, tab, carriage return, any Unicode White_Space) between two texts splits their words apart and adds no word |
| Util.ParseRow | src/util.rs:8 | every word parses to its entry, or the error names a word that does not parse |
| Util.ParseRowStopsAtError | src/util.rs:4-8 | the first unparsable word of a line decides the error |
| Util.ParseRows | src/util.rs:3-10 | every line parses to its row, or the error names an unparsable word of some line |
| Util.ParseRowsStopsAtError | src/util.rs:3-10 | the first failing line decides the error |
| Util.ParseRowsNext | src/util.rs:3-10 | parsing one more line of a prefix that parsed appends its row, or fails with that line's error |
| Util.Width | src/util.rs:5-7 | the number of columns is the length of the longest row |
| Util.ColumnOf | src/util.rs:5-8 | a column has at most one entry per line |
| Util.ColumnReached | src/util.rs:5-8 | a line that reaches position w puts an entry into column w |
| Util.Columns | src/util.rs:1-14 | as many columns as the longest row has entries |
| Util.ColumnsShape | src/util.rs:5-8 | no column is empty, none has more entries than there are lines, and none is longer than a column to its left |
| Util.Push | src/util.rs:5-8 | the column at w gets x appended, created first when w is the number of columns; no other column changes |
| Util.ColumnBeyondWidth | src/util.rs:5-7 | no column exists past the longest row |
| Util.BlankRow | src/util.rs:4-9 | a blank line adds nothing to the columns |
| Util.AppendToRow | src/util.rs:5-8 | the next word of a line is pushed onto the column of its position, which is created when it is new |
| Util.ColumnsShrink | src/util.rs:5-8 | columns never get longer from left to right |
| Util.ColumnsShrinkFrom | src/util.rs:5-8 | from column v to any column w >= v the columns never get longer |
| Util.Transpose | src/util.rs:1-14 | rows of equal length n give n columns: entry r of column w is entry w of row r |
| Util.LoadTxtOf | src/util.rs:1-14 | an unreadable file is the only `Unreadable` result; any other failure is an unparsable word; every column of a loaded file is non-empty and has at most one entry per line |
| Util.LoadTxtRectangular | src/util.rs:1-14 | a file whose lines all hold n words loads as n columns with one parsed entry per line |
| Util.LoadTxtErrorNamesWord | src/util.rs:3-8 | a failed load names a word of the file that does not parse |
| Util.PushWords | src/util.rs:4-9 | the word loop of one line yields the columns with that row appended, or the error of its first unparsable word |
| Util.LoadTxt | src/util.rs:1-14 | the nested loops return the columns of the parsed rows, or the first error |

## Left out

- The PDF backend (`pdfpdf`) is not part of this model. That covers the font setup, `draw_axes`, the drawing of the data series and its clipping box, the axis label texts, the `image` transform and `add_image_at`, and `write_to`.
- The values of `colormaps::VIRIDIS` are not part of this model. A colour map is any 256 entries with channels in [0, 1] (`Colors.ValidColormap`).
- Label texts: a label is its value and the `format!` form chosen for it (plain, fixed point with n digits, scientific with n digits). The characters the formatter would print are not modelled.
- `width_of` is a parameter of the `Plot` class (`widthOf`), because it measures text in the backend's font.
- `ToU64::to_u64` is a parameter (`toU64`) that is only assumed to land within one of its argument; `FloatMax::float_max` is `Numeric.SeqMax`.
- Floating-point rounding is not modelled: arithmetic is exact over the reals. The same holds for overflow to infinity (for example `max - min` of two huge values) and for the saturating `as i32`, `as i64` and `as usize` casts.
- `image_width * image_height` is an unbounded product, so a `usize` overflow is not modelled. The image sizes are used only in the size check, because the transform that uses them is left out.
- The `marker`, `linestyle`, `xlabel` and `ylabel` settings are stored by their setters, but what they change in the drawing is left out.
- Ticks.ComputeTickInterval: requires a non-zero range. For a zero range the source takes `log10(0) = -inf`, whose saturating `as i32` makes every candidate 0; every tick count is then NaN cast to 0, all distances are 5, and the first candidate wins, so it returns a zero interval, and the snapping that follows divides by it. The model does not define the zero-range case.
- Axes.PlanAxis: requires `WellPosed`, which excludes three inputs. A pinned interval of zero divides by zero, in the snapping of unpinned limits and in the tick count. A negative pinned interval turns `floor` and `ceil` around so that unpinned limits are snapped inward, and it makes the tick count `to_u64` of a negative quotient, a conversion this model does not define. With the interval unpinned, an extent of a single value or equal pinned limits give `compute_tick_interval(0)`, which returns a zero interval; the snapping of unpinned limits, or the tick count for equal pinned limits, then divides by it. The NaN or infinite limits and tick counts that follow are not modelled.
- Axes.Axis.TickLabels: requires a non-zero interval, for the same reason.
- PdfPlot.Plot.DigestTickSettings: requires `Posed`, which is `WellPosed` for both axes.
- PdfPlot.Plot.LinePlot: requires `Posed`, as above.
- PdfPlot.Plot.Image: requires `Posed` for empty data and a valid colour map, as above.
- Canvas.ToCanvas, Canvas.CanvasAnchors: require distinct limits, which `WellPosed` does not guarantee when the interval is pinned and either the pinned limits are equal or the data hold a single value that is a multiple of the interval (y data all 0 with a y tick interval of 1 snap to the limits (0, 0)). With equal limits the closures divide by zero.
- Colors.FiniteLowHighExact: requires every cell to lie in the range of a double, which any `f64` does.
- `loadtxt`'s file reading is a parameter (`contents`, `None` when the file cannot be read), and so is `str::parse::<f64>` (`parse`). The panics of both `unwrap` calls are `Err` results.
- `lines()` strips a carriage return only before a line feed. This does not affect the words, since a carriage return is whitespace.
- `Plot` setters return `this` in place of `&mut Self`; the chaining itself is not modelled.
