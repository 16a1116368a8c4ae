/** Pure helpers of the visualizer: linear interpolation, linear range
    mapping and the RGBA-to-grayscale conversion of an image buffer.
    Numbers are modelled as exact reals; bytes of the clamped pixel buffer
    as integers in 0..255. */
module Utils {

  /** One element of a clamped RGBA byte buffer. */
  type Byte = x: int | 0 <= x < 256

  function Min(a: real, b: real): real { if a <= b then a else b }
  function Max(a: real, b: real): real { if a <= b then b else a }

  /** Linear interpolation from `a` (at time 0) to `b` (at time 1). */
  function Lerp(time: real, a: real, b: real): (r: real)
    ensures time == 0.0 ==> r == a
    ensures time == 1.0 ==> r == b
    ensures 0.0 <= time <= 1.0 ==> Min(a, b) <= r <= Max(a, b)
  {
    var r := (b - a) * time + a;
    assert 0.0 <= time <= 1.0 ==> Min(a, b) <= r <= Max(a, b) by {
      if 0.0 <= time <= 1.0 {
        if a <= b {
          ScaleWithin(b - a, time, (b - a) * time);
        } else {
          ScaleWithin(a - b, time, -((b - a) * time));
        }
      }
    }
    r
  }

  /** Maps `time` linearly from the range [a, b] onto the range [c, d].
      The source divides by `b - a`, so a degenerate source range is
      excluded (in the source it would produce NaN or an infinity). */
  function MapRange(time: real, a: real, b: real, c: real, d: real): (r: real)
    requires a != b
    ensures r == Lerp((time - a) / (b - a), c, d)
    ensures time == a ==> r == c
    ensures time == b ==> r == d
    ensures (a <= time <= b || b <= time <= a) ==> Min(c, d) <= r <= Max(c, d)
  {
    var s := (time - a) / (b - a);
    assert (a <= time <= b || b <= time <= a) ==> 0.0 <= s <= 1.0 by {
      if a <= time <= b || b <= time <= a {
        QuotientInUnit(time - a, b - a);
      }
    }
    assert time == b ==> s == 1.0 by {
      if time == b {
        DivSelf(time - a, b - a);
      }
    }
    (time - a) / (b - a) * (d - c) + c
  }

  /** Mapping [a, b] onto [c, d] and back onto [a, b] returns the value
      that was mapped, whenever both ranges are non-degenerate. */
  lemma MapRangeRoundTrip(time: real, a: real, b: real, c: real, d: real)
    requires a != b && c != d
    ensures MapRange(MapRange(time, a, b, c, d), c, d, a, b) == time
  {
    var s := (time - a) / (b - a);
    var m := MapRange(time, a, b, c, d);
    DivCancel(s, d - c, m - c);
    DivMul(time - a, b - a);
  }

  /** Over an increasing source range (`a < b`), MapRange is monotone:
      non-decreasing onto an increasing target range, non-increasing onto a
      reversed one. */
  lemma MapRangeMonotone(t1: real, t2: real, a: real, b: real, c: real, d: real)
    requires a < b && t1 <= t2
    ensures c <= d ==> MapRange(t1, a, b, c, d) <= MapRange(t2, a, b, c, d)
    ensures d <= c ==> MapRange(t2, a, b, c, d) <= MapRange(t1, a, b, c, d)
  {
    var s1 := (t1 - a) / (b - a);
    var s2 := (t2 - a) / (b - a);
    var w := s2 - s1;
    assert w == (t2 - t1) / (b - a);
    QuotientNonNegative(t2 - t1, b - a);
    if c <= d {
      ProductNonNegative(w, d - c);
      assert s2 * (d - c) - s1 * (d - c) == w * (d - c);
    } else {
      ProductNonNegative(w, c - d);
      assert s1 * (d - c) - s2 * (d - c) == w * (c - d);
    }
  }

  // Small facts of real arithmetic that the proofs above and in the
  // waveform module rely on.

  lemma ProductNonNegative(x: real, y: real)
    requires 0.0 <= x && 0.0 <= y
    ensures 0.0 <= x * y
  {
  }

  lemma ProductPositive(x: real, y: real)
    requires 0.0 < x && 0.0 < y
    ensures 0.0 < x * y
  {
  }

  lemma ProductMonotoneReal(a: real, b: real, c: real)
    requires a <= b && 0.0 <= c
    ensures a * c <= b * c
  {
    ProductNonNegative(b - a, c);
    assert b * c - a * c == (b - a) * c;
  }

  lemma ScaleWithin(w: real, t: real, p: real)
    requires 0.0 <= w && 0.0 <= t <= 1.0 && p == w * t
    ensures 0.0 <= p <= w
  {
    ProductNonNegative(w, t);
    ProductNonNegative(w, 1.0 - t);
    assert w * (1.0 - t) == w - w * t;
  }

  lemma DivMul(x: real, y: real)
    requires y != 0.0
    ensures (x / y) * y == x
  {
  }

  lemma DivCancel(x: real, y: real, p: real)
    requires y != 0.0 && p == x * y
    ensures p / y == x
  {
  }

  lemma DivSelf(x: real, y: real)
    requires y != 0.0 && x == y
    ensures x / y == 1.0
  {
  }

  lemma QuotientNonNegative(x: real, y: real)
    requires 0.0 <= x && 0.0 < y
    ensures 0.0 <= x / y
  {
    var q := x / y;
    DivMul(x, y);
    if q < 0.0 {
      ProductPositive(-q, y);
    }
  }

  lemma QuotientInUnit(x: real, y: real)
    requires (0.0 <= x <= y && 0.0 < y) || (y <= x <= 0.0 && y < 0.0)
    ensures 0.0 <= x / y <= 1.0
  {
    var q := x / y;
    DivMul(x, y);
    if 0.0 < y {
      if q < 0.0 {
        ProductPositive(-q, y);
      } else if 1.0 < q {
        ProductPositive(q - 1.0, y);
      }
    } else {
      if q < 0.0 {
        ProductPositive(-q, -y);
      } else if 1.0 < q {
        ProductPositive(q - 1.0, -y);
      }
    }
  }

  /** The gray level of one pixel: the plain average of its red, green and
      blue channels. */
  function Gray(r: Byte, g: Byte, b: Byte): (v: real)
    ensures 0.0 <= v <= 255.0
    ensures r == g == b ==> v == r as real
    ensures Min(Min(r as real, g as real), b as real) <= v
    ensures v <= Max(Max(r as real, g as real), b as real)
  {
    (r + b + g) as real / 3.0
  }

  /** Converts a flat RGBA buffer (four bytes per pixel, row by row) into
      one gray level per pixel. The alpha byte of each pixel is ignored. */
  function GetGrayscaleFromRGB(width: nat, height: nat, pixels: seq<Byte>): (gray: seq<real>)
    requires |pixels| >= 4 * (width * height)
    ensures |gray| == width * height
    ensures forall i :: 0 <= i < |gray| ==> 0.0 <= gray[i] <= 255.0
    ensures forall i :: 0 <= i < |gray| ==>
      gray[i] == Gray(pixels[4 * i], pixels[4 * i + 1], pixels[4 * i + 2])
  {
    seq(width * height, i requires 0 <= i < width * height =>
      var pixelIndex := i * 4;
      Gray(pixels[pixelIndex + 0], pixels[pixelIndex + 1], pixels[pixelIndex + 2]))
  }

  /** Two buffers that differ only in alpha bytes give the same grayscale image. */
  lemma GrayscaleIgnoresAlpha(width: nat, height: nat, p: seq<Byte>, q: seq<Byte>)
    requires |p| == |q| >= 4 * (width * height)
    requires forall j :: 0 <= j < |p| && j % 4 != 3 ==> p[j] == q[j]
    ensures GetGrayscaleFromRGB(width, height, p) == GetGrayscaleFromRGB(width, height, q)
  {
    var gp := GetGrayscaleFromRGB(width, height, p);
    var gq := GetGrayscaleFromRGB(width, height, q);
    forall i | 0 <= i < width * height
      ensures gp[i] == gq[i]
    {
      ColourBytes(i);
    }
  }

  /** The first three bytes of pixel `i` are not alpha bytes. */
  lemma ColourBytes(i: nat)
    ensures (4 * i) % 4 == 0 && (4 * i + 1) % 4 == 1 && (4 * i + 2) % 4 == 2
  {
  }

  /** A pixel whose three colour channels agree keeps that value as its gray level. */
  lemma GrayscaleOfNeutralPixel(width: nat, height: nat, pixels: seq<Byte>, i: nat)
    requires |pixels| >= 4 * (width * height) && i < width * height
    requires pixels[4 * i] == pixels[4 * i + 1] == pixels[4 * i + 2]
    ensures GetGrayscaleFromRGB(width, height, pixels)[i] == pixels[4 * i] as real
  {
  }
}
