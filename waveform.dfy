/** The per-frame drawing of the visualizer. The image is cut into
    `HDivisions` horizontal bands; in each band a polyline is drawn along the
    band's centre, one vertex per image column, displaced by a sine wave
    whose amplitude grows as the scanline through the band's centre gets
    darker.

    The geometry is specified by functions over a `Frame` (the inputs one
    call of render sees); the class `Visualizer` holds the state the render
    closure captures and its `Render` method is proved to draw exactly the
    segments the specification lists. */
module Waveform {
  import opened Utils

  /** Number of horizontal bands the image is cut into. */
  const HDivisions: nat := 60

  /** `Math.PI` as an exact real: the shortest decimal that rounds to the
      double, not the double's exact binary value. */
  const Pi: real := 3.141592653589793

  datatype Point = Point(x: real, y: real)

  /** One call of `drawLine`: a straight stroke from `from` to `to`. */
  datatype Segment = Segment(from: Point, to: Point)

  /** Everything one frame's geometry depends on: the image size, its gray
      levels, the two animation parameters of the frame and the sine
      function the runtime supplies. */
  datatype Frame = Frame(width: nat, height: nat, gray: seq<real>,
                         phase: real, frequency: real, sine: real -> real)

  /** What the set-up guarantees about a frame: a non-empty image whose
      gray buffer has one level in [0, 255] per pixel. */
  predicate WellFormed(f: Frame) {
    0 < f.height && |f.gray| == f.width * f.height &&
    forall i :: 0 <= i < |f.gray| ==> 0.0 <= f.gray[i] <= 255.0
  }

  /** The only property of the runtime's sine the geometry relies on. */
  ghost predicate SineBounded(sine: real -> real) {
    forall v :: -1.0 <= sine(v) <= 1.0
  }

  function HDivisionSize(height: nat): real {
    height as real / HDivisions as real
  }

  function MaxAmplitude(height: nat): real {
    HDivisionSize(height) / 2.0
  }

  /** The upper edge of band `k` (band `k` spans BandEdge(k) to BandEdge(k + 1)). */
  function BandEdge(height: nat, k: nat): real {
    k as real * HDivisionSize(height)
  }

  /** Band edges go down the image, from 0 to the image's bottom edge. */
  lemma BandEdgeMonotone(height: nat, j: nat, k: nat)
    requires j <= k
    ensures 0.0 <= BandEdge(height, j) <= BandEdge(height, k)
    ensures BandEdge(height, HDivisions) == height as real
  {
    ProductMonotoneReal(j as real, k as real, HDivisionSize(height));
    ProductNonNegative(j as real, HDivisionSize(height));
  }

  /** The centre line of band `k`: it lies inside the image and exactly
      `MaxAmplitude` away from both edges of the band. */
  function RowCentre(height: nat, k: nat): (y: real)
    requires k < HDivisions
    ensures y - MaxAmplitude(height) == BandEdge(height, k)
    ensures y + MaxAmplitude(height) == BandEdge(height, k + 1)
    ensures 0 < height ==> 0.0 < y < height as real
  {
    var h := HDivisionSize(height);
    var y := h / 2.0 + k as real * h;
    assert (k + 1) as real * h == k as real * h + h;
    BandEdgeMonotone(height, k, k + 1);
    BandEdgeMonotone(height, k + 1, HDivisions);
    y
  }

  /** Band centres go strictly down the image. */
  lemma RowCentresIncrease(height: nat, j: nat, k: nat)
    requires 0 < height && j < k < HDivisions
    ensures RowCentre(height, j) < RowCentre(height, k)
  {
    BandEdgeMonotone(height, j + 1, k);
  }

  /** Index of the gray level read for column `x` of band `k`: the pixel in
      column `x` of the scanline through the band's centre. It is always
      inside the gray buffer. */
  function GrayIndex(width: nat, height: nat, k: nat, x: nat): (i: nat)
    requires 0 < height && k < HDivisions && x < width
    ensures i < width * height
  {
    var row := RowCentre(height, k).Floor;
    RowBelowHeight(width, height, row, x);
    row * width + x
  }

  /** The gray index lies on the scanline through the band's centre, in
      column `x`. */
  lemma GrayIndexOnScanline(width: nat, height: nat, k: nat, x: nat)
    requires 0 < height && k < HDivisions && x < width
    ensures GrayIndex(width, height, k, x) / width == RowCentre(height, k).Floor
    ensures GrayIndex(width, height, k, x) % width == x
  {
    DivModOfRowMajor(width, RowCentre(height, k).Floor, x);
  }

  lemma RowBelowHeight(width: nat, height: nat, row: nat, x: nat)
    requires row < height && x < width
    ensures row * width + x < width * height
  {
    assert (row + 1) * width <= height * width by {
      ProductMonotone(row + 1, height, width);
    }
  }

  /** The integer counterpart of `ProductMonotoneReal`, for index arithmetic. */
  lemma ProductMonotone(a: nat, b: nat, c: nat)
    requires a <= b
    ensures a * c <= b * c
  {
  }

  lemma DivModOfRowMajor(width: nat, row: nat, x: nat)
    requires x < width
    ensures (row * width + x) / width == row && (row * width + x) % width == x
  {
    var n := row * width + x;
    var q, r := n / width, n % width;
    assert n == q * width + r && 0 <= r < width;
    if q < row {
      ProductMonotone(q + 1, row, width);
    } else if row < q {
      ProductMonotone(row + 1, q, width);
    }
  }

  /** The wave amplitude for a gray level: black gives the largest
      amplitude, white gives none, and every level in between stays within
      [0, maxAmplitude]. */
  function Amplitude(gray: real, maxAmplitude: real): (r: real)
    ensures gray == 0.0 ==> r == maxAmplitude
    ensures gray == 255.0 ==> r == 0.0
    ensures 0.0 <= gray <= 255.0 && 0.0 <= maxAmplitude ==> 0.0 <= r <= maxAmplitude
  {
    MapRange(gray, 0.0, 255.0, maxAmplitude, 0.0)
  }

  /** Darker pixels never get a smaller amplitude than lighter ones. */
  lemma AmplitudeDecreasing(g1: real, g2: real, maxAmplitude: real)
    requires g1 <= g2 && 0.0 <= maxAmplitude
    ensures Amplitude(g2, maxAmplitude) <= Amplitude(g1, maxAmplitude)
  {
    MapRangeMonotone(g1, g2, 0.0, 255.0, maxAmplitude, 0.0);
  }

  /** The phase angle of column `x`: the columns of the image span one
      full turn, starting at 0 and stopping short of 2 pi. */
  function Angle(width: nat, x: nat): (r: real)
    requires 0 < width
    ensures x == 0 ==> r == 0.0
    ensures x < width ==> 0.0 <= r < 2.0 * Pi
  {
    var r := MapRange(x as real, 0.0, width as real, 0.0, Pi * 2.0);
    assert x < width ==> r < 2.0 * Pi by {
      if x < width {
        var s := x as real / width as real;
        assert s * width as real == x as real;
        assert s < 1.0;
        assert r == s * (2.0 * Pi);
      }
    }
    r
  }

  /** The frequency of a frame for a sine value `s`: 20 at s = -1, 200 at
      s = 1, and within [20, 200] for every value of a sine. */
  function Frequency(s: real): (r: real)
    ensures s == -1.0 ==> r == 20.0
    ensures s == 1.0 ==> r == 200.0
    ensures -1.0 <= s <= 1.0 ==> 20.0 <= r <= 200.0
  {
    MapRange(s, -1.0, 1.0, 20.0, 200.0)
  }

  /** `Math.sin`, as supplied by the runtime. Every application of the
      runtime's sine goes through this one function, so that the
      specification and the methods name the same term. */
  function Sin(sine: real -> real, v: real): real {
    sine(v)
  }

  /** The argument of the sine at column `x`: the frame's phase plus the
      column's angle scaled by the frame's frequency. */
  function SineArgument(f: Frame, x: nat): real
    requires 0 < f.width
  {
    f.phase + Angle(f.width, x) * f.frequency
  }

  /** The amplitude of column `x` in band `k`, from the gray level read on
      the band's centre scanline: within [0, MaxAmplitude]. */
  function ColumnAmplitude(f: Frame, k: nat, x: nat): (a: real)
    requires WellFormed(f) && k < HDivisions && x < f.width
    ensures 0.0 <= a <= MaxAmplitude(f.height)
  {
    var i := GrayIndex(f.width, f.height, k, x);
    assert 0.0 <= f.gray[i] <= 255.0;
    Amplitude(f.gray[i], MaxAmplitude(f.height))
  }

  /** The wave vertex of column `x` in band `k`: the band's centre
      displaced by the sine of the column's phase, scaled by the column's
      amplitude. */
  function WavePoint(f: Frame, k: nat, x: nat): (p: Point)
    requires WellFormed(f) && k < HDivisions && x < f.width
    ensures p.x == x as real
  {
    var y := RowCentre(f.height, k);
    var sinValue := Sin(f.sine, SineArgument(f, x));
    var amplitude := ColumnAmplitude(f, k, x);
    Point(x as real, y + sinValue * amplitude)
  }

  /** For a bounded sine, a wave vertex is displaced from the band's centre
      by at most its column's amplitude. */
  lemma WavePointNearCentre(f: Frame, k: nat, x: nat)
    requires WellFormed(f) && SineBounded(f.sine) && k < HDivisions && x < f.width
    ensures RowCentre(f.height, k) - ColumnAmplitude(f, k, x) <= WavePoint(f, k, x).y
    ensures WavePoint(f, k, x).y <= RowCentre(f.height, k) + ColumnAmplitude(f, k, x)
  {
    var y, s, a := RowCentre(f.height, k), Sin(f.sine, SineArgument(f, x)), ColumnAmplitude(f, k, x);
    WavePointOf(f, k, x, y, s, a);
    OffsetWithin(y + s * a, y, s, a);
  }

  /** So a wave vertex never leaves its band, nor the image. */
  lemma WavePointInBand(f: Frame, k: nat, x: nat)
    requires WellFormed(f) && SineBounded(f.sine) && k < HDivisions && x < f.width
    ensures BandEdge(f.height, k) <= WavePoint(f, k, x).y <= BandEdge(f.height, k + 1)
    ensures 0.0 <= WavePoint(f, k, x).y <= f.height as real
  {
    var y, m := RowCentre(f.height, k), MaxAmplitude(f.height);
    WavePointNearCentre(f, k, x);
    Sandwich(WavePoint(f, k, x).y, y, ColumnAmplitude(f, k, x), m);
    BandEdgeMonotone(f.height, k, k + 1);
    BandEdgeMonotone(f.height, k + 1, HDivisions);
  }

  lemma Sandwich(p: real, y: real, a: real, m: real)
    requires y - a <= p <= y + a && a <= m
    ensures y - m <= p <= y + m
  {
  }

  lemma OffsetWithin(p: real, y: real, s: real, a: real)
    requires p == y + s * a && -1.0 <= s <= 1.0 && 0.0 <= a
    ensures y - a <= p <= y + a
  {
    ScaledByUnitFactor(s, a);
  }

  lemma ScaledByUnitFactor(s: real, a: real)
    requires -1.0 <= s <= 1.0 && 0.0 <= a
    ensures -a <= s * a <= a
  {
    ProductNonNegative(1.0 - s, a);
    ProductNonNegative(1.0 + s, a);
  }

  /** Vertex `j` of the polyline of band `k`: vertex 0 is the start point
      (-1, y) left of the image, vertex j + 1 is the wave vertex of column j. */
  function Vertex(f: Frame, k: nat, j: nat): Point
    requires WellFormed(f) && k < HDivisions && j <= f.width
  {
    if j == 0 then Point(-1.0, RowCentre(f.height, k)) else WavePoint(f, k, j - 1)
  }

  /** The strokes of band `k`: one segment per column, joining consecutive
      vertices of the band's polyline. */
  function RowSegments(f: Frame, k: nat): (s: seq<Segment>)
    requires WellFormed(f) && k < HDivisions
    ensures |s| == f.width
  {
    seq(f.width, x requires 0 <= x < f.width => Segment(Vertex(f, k, x), Vertex(f, k, x + 1)))
  }

  /** The strokes of the first `n` bands, band after band. */
  function FrameSegments(f: Frame, n: nat): (s: seq<Segment>)
    requires WellFormed(f) && n <= HDivisions
    ensures |s| == n * f.width
  {
    if n == 0 then [] else
      var s := FrameSegments(f, n - 1) + RowSegments(f, n - 1);
      assert |s| == (n - 1) * f.width + f.width;
      s
  }

  /** Segment `x` of band `k` is at position k * width + x of the frame. */
  lemma FrameSegmentAt(f: Frame, n: nat, k: nat, x: nat)
    requires WellFormed(f) && k < n <= HDivisions && x < f.width
    ensures k * f.width + x < |FrameSegments(f, n)|
    ensures FrameSegments(f, n)[k * f.width + x] == RowSegments(f, k)[x]
  {
    BandStrokesAt(f, n, k, x);
  }

  /** Band `k`'s strokes follow the strokes of the bands above it. */
  lemma {:induction false} BandStrokesAt(f: Frame, n: nat, k: nat, x: nat)
    requires WellFormed(f) && k < n <= HDivisions && x < f.width
    ensures |FrameSegments(f, k)| + x < |FrameSegments(f, n)|
    ensures FrameSegments(f, n)[|FrameSegments(f, k)| + x] == RowSegments(f, k)[x]
  {
    var before, last := FrameSegments(f, n - 1), RowSegments(f, n - 1);
    var i := |FrameSegments(f, k)| + x;
    if k < n - 1 {
      BandStrokesAt(f, n - 1, k, x);
      ConcatAt(before, last, FrameSegments(f, n), i);
    } else {
      assert before == FrameSegments(f, k);
      ConcatAt(before, last, FrameSegments(f, n), i);
    }
  }

  lemma ConcatAt<T>(a: seq<T>, b: seq<T>, s: seq<T>, i: nat)
    requires s == a + b && i < |a| + |b|
    ensures i < |s|
    ensures i < |a| ==> s[i] == a[i]
    ensures |a| <= i ==> s[i] == b[i - |a|]
  {
  }

  /** Every band's polyline starts at (-1, y) on the band's centre line,
      and inside a band each stroke starts where the previous one ended. */
  lemma FrameChained(f: Frame, k: nat, x: nat)
    requires WellFormed(f) && k < HDivisions && x < f.width
    ensures k * f.width + x < |FrameSegments(f, HDivisions)|
    ensures x == 0 ==>
      FrameSegments(f, HDivisions)[k * f.width].from == Point(-1.0, RowCentre(f.height, k))
    ensures 0 < x ==>
      FrameSegments(f, HDivisions)[k * f.width + x].from == FrameSegments(f, HDivisions)[k * f.width + x - 1].to
  {
    FrameSegmentAt(f, HDivisions, k, x);
    if 0 < x {
      FrameSegmentAt(f, HDivisions, k, x - 1);
    }
  }

  /** Stroke `x` of band `k` goes from column x - 1 to column x and, for a
      bounded sine, both its ends stay inside band `k`. */
  lemma FrameWithinBands(f: Frame, k: nat, x: nat)
    requires WellFormed(f) && SineBounded(f.sine) && k < HDivisions && x < f.width
    ensures k * f.width + x < |FrameSegments(f, HDivisions)|
    ensures var s := FrameSegments(f, HDivisions)[k * f.width + x];
      s.from.x == x as real - 1.0 && s.to.x == x as real &&
      BandEdge(f.height, k) <= s.from.y <= BandEdge(f.height, k + 1) &&
      BandEdge(f.height, k) <= s.to.y <= BandEdge(f.height, k + 1)
  {
    FrameSegmentAt(f, HDivisions, k, x);
    WavePointInBand(f, k, x);
    assert RowSegments(f, k)[x] == Segment(Vertex(f, k, x), WavePoint(f, k, x));
    if 0 < x {
      WavePointInBand(f, k, x - 1);
    }
  }

  /** A vertex of an upper band is never below a vertex of a lower band. */
  lemma BandsOrdered(f: Frame, j: nat, k: nat, x1: nat, x2: nat)
    requires WellFormed(f) && SineBounded(f.sine)
    requires j < k < HDivisions && x1 < f.width && x2 < f.width
    ensures WavePoint(f, j, x1).y <= WavePoint(f, k, x2).y
  {
    WavePointInBand(f, j, x1);
    WavePointInBand(f, k, x2);
    BandEdgeMonotone(f.height, j + 1, k);
  }

  lemma RowSegmentsStep(f: Frame, k: nat, x: nat, drawn: seq<Segment>)
    requires WellFormed(f) && k < HDivisions && x < f.width
    ensures drawn + RowSegments(f, k)[..x + 1] ==
      (drawn + RowSegments(f, k)[..x]) + [Segment(Vertex(f, k, x), WavePoint(f, k, x))]
    ensures Vertex(f, k, x + 1) == WavePoint(f, k, x)
  {
    PrefixExtend(drawn, RowSegments(f, k), x);
  }

  lemma PrefixExtend<T>(drawn: seq<T>, s: seq<T>, n: nat)
    requires n < |s|
    ensures drawn + s[..n + 1] == (drawn + s[..n]) + [s[n]]
  {
    assert s[..n + 1] == s[..n] + [s[n]];
  }

  lemma RowCentreOf(height: nat, k: nat, h: real)
    requires k < HDivisions && h == HDivisionSize(height)
    ensures h / 2.0 + k as real * h == RowCentre(height, k)
  {
  }

  lemma SineArgumentOf(f: Frame, x: nat, phase: real, frequency: real, angle: real, arg: real)
    requires 0 < f.width && angle == Angle(f.width, x)
    requires phase == f.phase && frequency == f.frequency && arg == phase + angle * frequency
    ensures arg == SineArgument(f, x)
  {
  }

  lemma WavePointOf(f: Frame, k: nat, x: nat, y: real, s: real, a: real)
    requires WellFormed(f) && k < HDivisions && x < f.width
    requires y == RowCentre(f.height, k) && s == Sin(f.sine, SineArgument(f, x))
    requires a == ColumnAmplitude(f, k, x)
    ensures Point(x as real, y + s * a) == WavePoint(f, k, x)
  {
  }

  /** The state the render closure captures: the image (fixed once loaded),
      the animation parameters it updates on every frame, and the strokes
      on the canvas since its last clear. */
  class Visualizer {
    const width: nat
    const height: nat
    const grayScalePixels: seq<real>
    const hDivisionSize: real
    const maxAmplitude: real

    var frequency: real
    var phase: real
    var time: nat

    /** The strokes drawn on the canvas since the background was last filled. */
    var strokes: seq<Segment>

    ghost predicate Valid() {
      0 < height && |grayScalePixels| == width * height &&
      (forall i :: 0 <= i < |grayScalePixels| ==> 0.0 <= grayScalePixels[i] <= 255.0) &&
      hDivisionSize == HDivisionSize(height) && maxAmplitude == MaxAmplitude(height)
    }

    /** The geometry the current state draws with the given sine. */
    function CurrentFrame(sine: real -> real): Frame
      reads this`phase, this`frequency
    {
      Frame(width, height, grayScalePixels, phase, frequency, sine)
    }

    /** Set-up of `main` for an image of the given size and RGBA bytes. */
    constructor (width: nat, height: nat, pixels: seq<Byte>)
      requires 0 < height && |pixels| == 4 * (width * height)
      ensures Valid()
      ensures this.width == width && this.height == height
      ensures grayScalePixels == GetGrayscaleFromRGB(width, height, pixels)
      ensures frequency == 150.0 && phase == 0.0 && time == 0 && strokes == []
    {
      this.width := width;
      this.height := height;
      grayScalePixels := GetGrayscaleFromRGB(width, height, pixels);
      hDivisionSize := height as real / HDivisions as real;
      maxAmplitude := height as real / HDivisions as real / 2.0;
      frequency := 150.0;
      phase := 0.0;
      time := 0;
      strokes := [];
    }

    /** `drawLine`: strokes one segment onto the canvas. */
    method DrawLine(from: Point, to: Point)
      modifies this`strokes
      ensures strokes == old(strokes) + [Segment(from, to)]
    {
      strokes := strokes + [Segment(from, to)];
    }

    /** One frame of the animation: clear the canvas, derive phase and
        frequency from the frame counter, stroke every band's polyline and
        advance the counter. */
    method Render(sine: real -> real)
      requires Valid()
      modifies this`phase, this`frequency, this`time, this`strokes
      ensures phase == old(time) as real / 2.0
      ensures frequency == Frequency(Sin(sine, old(time) as real / 30.0))
      ensures time == old(time) + 1
      ensures strokes == FrameSegments(CurrentFrame(sine), HDivisions)
      ensures |strokes| == HDivisions * width
    {
      // The black background fill covers everything stroked before.
      strokes := [];
      phase := time as real / 2.0;
      frequency := MapRange(Sin(sine, time as real / 30.0), -1.0, 1.0, 20.0, 200.0);

      for hDiv := 0 to HDivisions
        modifies this`strokes
        invariant strokes == FrameSegments(CurrentFrame(sine), hDiv)
      {
        DrawBand(sine, hDiv);
      }
      time := time + 1;
    }

    /** The body of render's outer loop: strokes the polyline of band
        `hDiv`, one segment per column, each from the previous point to the
        column's wave vertex. */
    method DrawBand(sine: real -> real, hDiv: nat)
      requires Valid() && hDiv < HDivisions
      modifies this`strokes
      ensures strokes == old(strokes) + RowSegments(CurrentFrame(sine), hDiv)
    {
      ghost var f := CurrentFrame(sine);
      var y := BandCentre(hDiv);
      var prevPoint := Point(-1.0, y);
      for x := 0 to width
        invariant strokes == old(strokes) + RowSegments(f, hDiv)[..x]
        invariant prevPoint == Vertex(f, hDiv, x)
      {
        var point := WaveVertex(sine, hDiv, y, x);
        DrawLine(prevPoint, point);
        RowSegmentsStep(f, hDiv, x, old(strokes));
        prevPoint := point;
      }
      assert RowSegments(f, hDiv)[..width] == RowSegments(f, hDiv);
    }

    /** The centre line of band `hDiv`, as render computes it. */
    method BandCentre(hDiv: nat) returns (y: real)
      requires Valid() && hDiv < HDivisions
      ensures y == RowCentre(height, hDiv)
      ensures 0.0 < y < height as real
    {
      y := hDivisionSize / 2.0 + hDiv as real * hDivisionSize;
      RowCentreOf(height, hDiv, hDivisionSize);
    }

    /** The body of render's inner loop up to the stroke: the wave vertex
        of column `x` in the band centred on `y`. */
    method WaveVertex(sine: real -> real, hDiv: nat, y: real, x: nat) returns (point: Point)
      requires Valid() && hDiv < HDivisions && x < width
      requires y == RowCentre(height, hDiv)
      ensures point == WavePoint(CurrentFrame(sine), hDiv, x)
    {
      ghost var f := CurrentFrame(sine);
      var angle := MapRange(x as real, 0.0, width as real, 0.0, Pi * 2.0);
      assert angle == Angle(width, x);
      var arg := phase + angle * frequency;
      SineArgumentOf(f, x, phase, frequency, angle, arg);
      var sinValue := Sin(sine, arg);
      var grayIndex := y.Floor * width + x;
      assert grayIndex == GrayIndex(width, height, hDiv, x);
      var grayValue := grayScalePixels[grayIndex];
      var amplitude := MapRange(grayValue, 0.0, 255.0, maxAmplitude, 0.0);
      assert amplitude == ColumnAmplitude(f, hDiv, x);
      point := Point(x as real, y + sinValue * amplitude);
      WavePointOf(f, hDiv, x, y, sinValue, amplitude);
    }
  }
}
