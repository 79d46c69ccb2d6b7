/** The intensity-to-RGB conversion at the top of `Plot::image` in
    src/lib.rs: the finite minimum and maximum of the cells, then three bytes
    per cell, taken from a 256-entry colour map for finite cells and white
    for NaN and infinite ones. */
module Colors {
  import opened Numeric

  /** A byte of the RGB buffer (`u8`). */
  type Byte = b: int | 0 <= b < 256

  /** A colour map entry; `[f64; 3]` with channels in [0, 1]. */
  datatype Rgb = Rgb(r: real, g: real, b: real)

  predicate UnitRgb(c: Rgb)
  {
    0.0 <= c.r <= 1.0 && 0.0 <= c.g <= 1.0 && 0.0 <= c.b <= 1.0
  }

  /** A colour map such as `colormaps::VIRIDIS`: 256 entries, channels in
      [0, 1]. The entries themselves are not part of this model. */
  predicate ValidColormap(cmap: seq<Rgb>)
  {
    |cmap| == 256 && forall k :: 0 <= k < 256 ==> UnitRgb(cmap[k])
  }

  /** `(c * 255.0) as u8` for a channel in [0, 1]: truncation. */
  function ChannelByte(c: real): (b: Byte)
    requires 0.0 <= c <= 1.0
    ensures b as real <= c * 255.0 < b as real + 1.0
  {
    (c * 255.0).Floor
  }

  /** `((i.max(min) - min) / (max - min) * 255.0) as usize`. When max == min
      the quotient is 0/0, NaN, and `as usize` turns NaN into 0. */
  function ColorIndex(v: real, lo: real, hi: real): (k: nat)
    requires lo <= v <= hi
    ensures k <= 255
    ensures lo < hi ==> k as real <= (v - lo) / (hi - lo) * 255.0 < k as real + 1.0
    ensures hi == lo ==> k == 0
    ensures v == lo ==> k == 0
    ensures lo < hi && v == hi ==> k == 255
  {
    if hi == lo then 0
    else
      Fraction(Max(v, lo) - lo, hi - lo);
      ((Max(v, lo) - lo) / (hi - lo) * 255.0).Floor
  }

  /** 0 <= a / b <= 1 for 0 <= a <= b, with 1 exactly when a == b. */
  lemma Fraction(a: real, b: real)
    requires 0.0 <= a <= b && b > 0.0
    ensures 0.0 <= a / b <= 1.0
    ensures a == b ==> a / b == 1.0
  {
    var q := a / b;
    assert q * b == a;
  }

  /** A larger value never gets a smaller colour index. */
  lemma ColorIndexMonotone(a: real, b: real, lo: real, hi: real)
    requires lo <= a <= b <= hi
    ensures ColorIndex(a, lo, hi) <= ColorIndex(b, lo, hi)
  {
    if lo < hi {
      QuotientMonotone(a - lo, b - lo, hi - lo);
    }
  }

  lemma QuotientMonotone(a: real, b: real, d: real)
    requires a <= b && d > 0.0
    ensures a / d * 255.0 <= b / d * 255.0
  {
    assert b / d - a / d == (b - a) / d;
  }

  /** The three bytes of one cell. */
  function Pixel(cell: Float, lo: real, hi: real, cmap: seq<Rgb>): (px: seq<Byte>)
    requires ValidColormap(cmap)
    requires cell.Finite? ==> lo <= cell.v <= hi
    ensures |px| == 3
    ensures !cell.Finite? ==> px == [255, 255, 255]
    ensures cell.Finite? ==> px == EntryBytes(cmap, ColorIndex(cell.v, lo, hi))
    ensures cell.Finite? && cell.v == lo ==> px == EntryBytes(cmap, 0)
    ensures cell.Finite? && lo < hi && cell.v == hi ==> px == EntryBytes(cmap, 255)
  {
    if !cell.Finite? then [255, 255, 255]
    else
      var c := cmap[ColorIndex(cell.v, lo, hi)];
      [ChannelByte(c.r), ChannelByte(c.g), ChannelByte(c.b)]
  }

  /** The bytes of the colour map entry k. */
  function EntryBytes(cmap: seq<Rgb>, k: nat): seq<Byte>
    requires ValidColormap(cmap) && k < 256
  {
    [ChannelByte(cmap[k].r), ChannelByte(cmap[k].g), ChannelByte(cmap[k].b)]
  }

  /** All finite cells of the data lie in [lo, hi]. */
  predicate CellsWithin(data: seq<Float>, lo: real, hi: real)
  {
    forall k :: 0 <= k < |data| && data[k].Finite? ==> lo <= data[k].v <= hi
  }

  /** The whole buffer: the cells' pixels one after another. */
  function Colorized(data: seq<Float>, lo: real, hi: real, cmap: seq<Rgb>): (bytes: seq<Byte>)
    requires ValidColormap(cmap) && CellsWithin(data, lo, hi)
    ensures |bytes| == 3 * |data|
  {
    if |data| == 0 then []
    else Colorized(data[..|data| - 1], lo, hi, cmap) + Pixel(data[|data| - 1], lo, hi, cmap)
  }

  /** Cell k of the data owns bytes 3k, 3k + 1 and 3k + 2 of the buffer. */
  lemma {:induction false} ColorizedCell(data: seq<Float>, lo: real, hi: real, cmap: seq<Rgb>, k: nat)
    requires ValidColormap(cmap) && CellsWithin(data, lo, hi) && k < |data|
    ensures Colorized(data, lo, hi, cmap)[3 * k..3 * k + 3] == Pixel(data[k], lo, hi, cmap)
  {
    var p := data[..|data| - 1];
    assert CellsWithin(p, lo, hi) by {
      assert forall j :: 0 <= j < |p| ==> p[j] == data[j];
    }
    var rest := Colorized(p, lo, hi, cmap);
    var px := Pixel(data[|data| - 1], lo, hi, cmap);
    if k < |p| {
      ColorizedCell(p, lo, hi, cmap, k);
      SliceOfConcat(rest, px, 3 * k, 3 * k + 3);
    } else {
      assert k == |p| && 3 * k == |rest|;
      SliceOfConcat(rest, px, |rest|, |rest| + 3);
    }
  }

  /** A slice of a concatenation that stays within one side. */
  lemma SliceOfConcat<T>(a: seq<T>, b: seq<T>, i: nat, j: nat)
    requires i <= j
    requires j <= |a| || (i == |a| && j == |a| + |b|)
    ensures j <= |a| ==> (a + b)[i..j] == a[i..j]
    ensures i == |a| && j == |a| + |b| ==> (a + b)[i..j] == b
  {
  }

  /** `min` of the first loop: starts at `f64::MAX` and takes every finite
      cell below it. */
  function FiniteLow(s: seq<Float>): (low: real)
    ensures low <= MaxF64
    ensures low == MaxF64 || Finite(low) in s
  {
    if |s| == 0 then MaxF64
    else
      var m := FiniteLow(s[..|s| - 1]);
      var x := s[|s| - 1];
      if x.Finite? && x.v < m then x.v else m
  }

  /** `max` of the first loop: starts at `f64::MIN` and takes every finite
      cell above it. */
  function FiniteHigh(s: seq<Float>): (high: real)
    ensures high >= -MaxF64
    ensures high == -MaxF64 || Finite(high) in s
  {
    if |s| == 0 then -MaxF64
    else
      var m := FiniteHigh(s[..|s| - 1]);
      var x := s[|s| - 1];
      if x.Finite? && x.v > m then x.v else m
  }

  /** Every finite cell lies between the scanned minimum and maximum, so the
      clipping `i.max(min)` never changes a value and the index stays in
      0..=255. */
  lemma {:induction false} FiniteBounds(s: seq<Float>)
    ensures CellsWithin(s, FiniteLow(s), FiniteHigh(s))
  {
    if |s| > 0 {
      var p := s[..|s| - 1];
      FiniteBounds(p);
      assert forall k :: 0 <= k < |p| ==> s[k] == p[k];
    }
  }

  /** With no finite cell the loop leaves the starting values in place. */
  lemma {:induction false} NoFiniteCells(s: seq<Float>)
    requires |FiniteValues(s)| == 0
    ensures FiniteLow(s) == MaxF64 && FiniteHigh(s) == -MaxF64
  {
    if |s| > 0 {
      NoFiniteCells(s[..|s| - 1]);
    }
  }

  /** For cells a double can hold, the scanned minimum and maximum are the
      least and greatest finite cells. */
  lemma {:induction false} FiniteLowHighExact(s: seq<Float>)
    requires forall k :: 0 <= k < |s| ==> InF64Range(s[k])
    requires |FiniteValues(s)| > 0
    ensures FiniteLow(s) == SeqMin(FiniteValues(s))
    ensures FiniteHigh(s) == SeqMax(FiniteValues(s))
  {
    var p, x := s[..|s| - 1], s[|s| - 1];
    assert forall k :: 0 <= k < |p| ==> p[k] == s[k];
    assert InF64Range(x);
    if |FiniteValues(p)| == 0 {
      NoFiniteCells(p);
      assert FiniteValues(s) == [x.v];
    } else {
      FiniteLowHighExact(p);
      if x.Finite? {
        SeqMinAppend(FiniteValues(p), x.v);
        SeqMaxAppend(FiniteValues(p), x.v);
      } else {
        assert FiniteValues(s) == FiniteValues(p);
      }
    }
  }

  /** The buffer `image` hands to the backend: the cells coloured against
      their own finite minimum and maximum. */
  function ImageBytes(data: seq<Float>, cmap: seq<Rgb>): (bytes: seq<Byte>)
    requires ValidColormap(cmap)
    ensures |bytes| == 3 * |data|
  {
    FiniteBounds(data);
    Colorized(data, FiniteLow(data), FiniteHigh(data), cmap)
  }

  /** The image buffer loop: scan the finite cells for their minimum and
      maximum, then emit three bytes per cell. */
  method Colorize(data: seq<Float>, cmap: seq<Rgb>) returns (bytes: seq<Byte>)
    requires ValidColormap(cmap)
    ensures CellsWithin(data, FiniteLow(data), FiniteHigh(data))
    ensures bytes == ImageBytes(data, cmap)
  {
    var min := MaxF64;
    var max := -MaxF64;
    var i := 0;
    while i < |data|
      invariant i <= |data|
      invariant min == FiniteLow(data[..i]) && max == FiniteHigh(data[..i])
    {
      assert data[..i + 1][..i] == data[..i];
      if data[i].Finite? {
        if data[i].v < min {
          min := data[i].v;
        }
        if data[i].v > max {
          max := data[i].v;
        }
      }
      i := i + 1;
    }
    assert data[..i] == data;
    FiniteBounds(data);

    bytes := [];
    i := 0;
    while i < |data|
      invariant i <= |data|
      invariant CellsWithin(data[..i], min, max)
      invariant bytes == Colorized(data[..i], min, max, cmap)
    {
      assert data[..i + 1][..i] == data[..i];
      var cell := data[i];
      if !cell.Finite? {
        bytes := bytes + [255, 255, 255];
      } else {
        var index := ColorIndex(cell.v, min, max);
        bytes := bytes + [ChannelByte(cmap[index].r), ChannelByte(cmap[index].g), ChannelByte(cmap[index].b)];
      }
      i := i + 1;
    }
    assert data[..i] == data;
  }

  /** The cells holding the finite maximum and minimum take the last and
      the first colour of the map when they differ; when all finite cells are
      equal, every finite cell takes the first colour; non-finite cells are
      white. */
  lemma ColorizeEnds(data: seq<Float>, cmap: seq<Rgb>, k: nat)
    requires ValidColormap(cmap) && k < |data|
    ensures var lo, hi := FiniteLow(data), FiniteHigh(data);
      var px := ImageBytes(data, cmap)[3 * k..3 * k + 3];
      && (!data[k].Finite? ==> px == [255, 255, 255])
      && (data[k].Finite? && data[k].v == hi && lo < hi ==> px == EntryBytes(cmap, 255))
      && (data[k].Finite? && data[k].v == lo ==> px == EntryBytes(cmap, 0))
      && (data[k].Finite? && lo == hi ==> px == EntryBytes(cmap, 0))
  {
    FiniteBounds(data);
    ColorizedCell(data, FiniteLow(data), FiniteHigh(data), cmap, k);
  }
}
