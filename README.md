# decoherence waveform visualizer — Dafny model

decoherence draws an image as an animated field of sine waves. The image is
turned into one gray level per pixel. It is then cut into 60 horizontal
bands. On every animation frame, each band gets a polyline along its centre
line with one vertex per image column. Each vertex is moved up or down by a
sine wave. The darker the pixel under the band's centre, the larger the
wave's amplitude. The wave's phase and frequency change from frame to frame.

The model has two modules:

- `Utils` (`utils.dfy`) holds the pure helpers `lerp`, `mapRange` and
  `getGrayscaleFromRGB` as functions, with lemmas about them. Numbers are
  exact reals. The clamped RGBA buffer is a sequence of integers in 0..255.
- `Waveform` (`waveform.dfy`) specifies one frame's geometry as functions
  over a `Frame`: band centres, gray index, amplitude, angle, wave vertices,
  and the list of strokes. It proves where vertices may lie and how strokes
  chain. The class `Visualizer` holds the state the `render` closure
  captures: `phase`, `frequency`, `time`, and the strokes on the canvas.
  `Render` keeps the source's two nested loops and is proved to draw exactly
  the strokes the specification lists. `drawLine` appends one segment to the
  `strokes` field.

`Math.sin` is a parameter `sine: real -> real`. The lemmas about vertex
positions assume the predicate `SineBounded` (every value in [-1, 1]).
`Math.PI` is the constant `Pi`, the shortest decimal that rounds to the double.

## Model

| member | source | states |
|---|---|---|
| Utils.Lerp | src/utils.ts:4-6 | lerp gives `a` at time 0 and `b` at time 1, and for time in [0, 1] lies between `a` and `b` |
| Utils.MapRange | src/utils.ts:9-17 | mapRange is lerp at `(t - a) / (b - a)` onto [c, d]; it maps `a` to `c` and `b` to `d`; any `t` between `a` and `b` lands between `c` and `d`, also when the target range is reversed |
| Utils.MapRangeRoundTrip | src/utils.ts:16 | mapping [a, b] onto [c, d] and back returns the original value when both ranges are non-degenerate |
| Utils.MapRangeMonotone | src/utils.ts:16 | over an increasing source range (`a < b`), mapRange is non-decreasing for an increasing target range and non-increasing for a reversed one |
| Utils.Gray | src/utils.ts:72-75 | a pixel's gray level is in [0, 255], between its smallest and largest channel, and equals `v` when all three channels are `v` |
| Utils.GetGrayscaleFromRGB | src/utils.ts:65-77 | the result has `width * height` levels in [0, 255]; level `i` is the average of bytes `4i`, `4i + 1` and `4i + 2` |
| Utils.GrayscaleIgnoresAlpha | src/utils.ts:70-76 | two buffers that differ only in alpha bytes give the same grayscale image |
| Utils.GrayscaleOfNeutralPixel | src/utils.ts:75 | a pixel with equal red, green and blue keeps that value as its gray level |
| Waveform.BandEdgeMonotone | src/main.ts:38-39 | band edges `k * height / 60` grow with `k`, start at 0 and end at `height` for `k = 60` |
| Waveform.RowCentre | src/main.ts:79 | band `k`'s centre `hDivisionSize / 2 + k * hDivisionSize` (with `HDivisionSize` = `height / 60` of main.ts:39 and `MaxAmplitude` = half of it, main.ts:40) lies exactly `maxAmplitude` below the band's top edge and above its bottom edge, and strictly inside (0, height) |
| Waveform.RowCentresIncrease | src/main.ts:78-79 | band centres strictly increase with the band number |
| Waveform.GrayIndex | src/main.ts:85-86 | `floor(y) * width + x` is a valid index of the gray buffer for every band and column |
| Waveform.GrayIndexOnScanline | src/main.ts:85 | the gray index lies on row `floor(y)` in column `x` |
| Waveform.Amplitude | src/main.ts:87 | gray 0 gives `maxAmplitude`, gray 255 gives 0, and every gray level in [0, 255] gives an amplitude in [0, maxAmplitude] |
| Waveform.AmplitudeDecreasing | src/main.ts:87 | a darker gray level never gets a smaller amplitude than a lighter one |
| Waveform.Angle | src/main.ts:83 | column 0 has angle 0 and every column in [0, width) has an angle in [0, 2 pi) |
| Waveform.Frequency | src/main.ts:75 | a sine value of -1 gives frequency 20, 1 gives 200, and any value in [-1, 1] gives a frequency in [20, 200] |
| Waveform.ColumnAmplitude | src/main.ts:85-87 | the amplitude of each column lies in [0, maxAmplitude] |
| Waveform.WavePoint | src/main.ts:89 | the vertex of column `x` has x coordinate `x`; its y is the centre plus the sine of `SineArgument` (`phase + angle * frequency`, main.ts:84) times the column's amplitude |
| Waveform.WavePointNearCentre | src/main.ts:84-89 | for a bounded sine, a vertex is at most its column's amplitude away from the band's centre |
| Waveform.WavePointInBand | src/main.ts:84-89 | for a bounded sine, every vertex stays inside its own band and inside [0, height] |
| Waveform.BandsOrdered | src/main.ts:78-89 | for a bounded sine, no vertex of a higher band lies below a vertex of a lower band, so bands never overlap |
| Waveform.RowSegments | src/main.ts:82-100 | each band contributes exactly `width` strokes; stroke `x` joins `Vertex(x)` to `Vertex(x + 1)`, where `Vertex` is the `prevPoint`/`point` chain of main.ts:81, 89 and 100 |
| Waveform.FrameSegments | src/main.ts:78-102 | the first `n` bands contribute exactly `n * width` strokes |
| Waveform.FrameSegmentAt | src/main.ts:78-102 | stroke `x` of band `k` is at position `k * width + x` of the frame's strokes |
| Waveform.BandStrokesAt | src/main.ts:78-102 | band `k`'s strokes start right after the strokes of all bands above it |
| Waveform.FrameChained | src/main.ts:81-100 | each band's first stroke starts at `(-1, y)` on the band's centre, and every later stroke starts where the previous one ended |
| Waveform.FrameWithinBands | src/main.ts:81-100 | stroke `x` of band `k` runs from column `x - 1` to column `x`, and for a bounded sine both its ends lie inside band `k` |
| Waveform.Visualizer.constructor | src/main.ts:33-45 | set-up stores the grayscale image of the pixels and starts with frequency 150, phase 0, time 0 and nothing drawn |
| Waveform.Visualizer.DrawLine | src/utils.ts:20-30 | drawing a line appends exactly one stroke from `from` to `to` to the canvas, and changes nothing else |
| Waveform.Visualizer.Render | src/main.ts:70-105 | a frame sets `phase = time / 2` and `frequency = mapRange(sin(time / 30), -1, 1, 20, 200)`, draws exactly the frame's `60 * width` strokes in band order, and increments `time` by 1 |
| Waveform.Visualizer.DrawBand | src/main.ts:79-101 | one pass of the outer loop appends exactly band `hDiv`'s strokes, in column order |
| Waveform.Visualizer.BandCentre | src/main.ts:79 | the centre computed for band `hDiv` is the band's specified centre and lies strictly inside (0, height) |
| Waveform.Visualizer.WaveVertex | src/main.ts:83-89 | one pass of the inner loop computes exactly the wave vertex of column `x` |

## Left out

- The temporary canvas and `getImageData` are not modelled. Width, height and the RGBA bytes are inputs to the constructor.
- Waveform.Visualizer.constructor: requires `0 < height`. `getImageData` throws for an empty image, so `render` never runs on one. With height 0 and a positive width, the source would read gray levels past the end of the buffer. A width of 0 is accepted, although `getImageData` throws for it too; such a visualizer draws no strokes.
- Utils.MapRange: requires `a != b`. With a degenerate source range, the source divides by zero and yields NaN or an infinity, which the exact reals cannot express. Every call site passes a non-degenerate range.
- IEEE double rounding is not modelled. All arithmetic is on exact reals, so `Math.floor` is `Floor` of an exact real. For some heights the double band centre falls just below an integer that the exact centre hits (height 40, band 7: 4.999999999999999 in doubles, exactly 5 here). For such heights `GrayIndex` reads the scanline one row below the one the source reads. Its in-bounds result holds either way.
- `Math.sin` is a parameter, not a concrete function. The only property the lemmas use is that its values lie in [-1, 1].
- `Math.PI` is 3.141592653589793, the shortest decimal that rounds to the double, as an exact real; the double's exact binary value differs beyond the 16th digit.
- Canvas side effects are not modelled: `setBackground`, `setStroke` and `setCanvasSize` (colour strings, fills, element sizes). The black fill at the start of `render` is modelled as clearing `strokes`, since it covers everything drawn before.
- `drawLine` keeps only the segment it strokes. Its path calls on the canvas are not modelled.
- `requestAnimationFrame` and the endless animation loop are not modelled. One call of `Render` is one frame.
- `console.log` and the commented-out random stroke colours are not modelled.
- `registerDNDHandlers`, `init`, the file picker, the MIME check and audio playback are not modelled. They are event and I/O glue.
- The outer loop body is the method `DrawBand`. Its centre computation is the method `BandCentre`, and the inner loop body up to the stroke is the method `WaveVertex`. This split keeps each proof small. The order of the statements is unchanged.
- `getGrayscaleFromRGB` returns a fresh array and leaves its input alone. In the model this holds by construction, because sequences are values.
