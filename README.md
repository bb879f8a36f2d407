# omega-tuner: the note model and the waveform renderer

A model of the logic in `tuner.js`, the browser guitar tuner. Two parts of
that file are more than browser plumbing, and the model covers both:

- **`Note`** (module `Notes`). A note is an integer semitone position `n`
  with a reference frequency (default 440 Hz) and a reference position
  (default 48). `toString` gives the note letter from a 12-entry table
  starting at A, indexed by `n % 12`, followed by the octave number
  `floor((n + 9) / 12)`. `toCents` gives `100 * n`, and `toHertz` gives
  `freq_ref * 2^((n - n_ref) / 12)`.
  The remainder operator of the host language truncates toward zero. So for
  a negative `n` that is not a multiple of 12, the table index is negative,
  the lookup yields `undefined`, and `toString` throws. `ToString` returns
  this failure as `LookupFailed(index)`.
- **`draw_array`** (module `Render`). It clears the canvas and then traces
  one polyline with `moveTo` followed by `lineTo`s. Vertex `i` sits at
  `x = i * W / N`. Vertex 0 sits at `y = data[0] * H / 256`; every later
  vertex sits at `y = (255 - data[i]) * H / 256`. Only the first vertex is
  not inverted, and the model keeps that as written. The canvas context is
  a class, `Context2D`. Its fields are the surface size, the polylines
  stroked since the last clear, and the path being built. `DrawArray` is a
  loop that accumulates `x += dx`. For a non-empty buffer it is proved
  to leave exactly `[Polyline(data, W, H)]` on the surface.

The octave number is printed by string concatenation of a number. Module
`Decimal` models this as the decimal text of an integer, with a leading
minus sign for negative values. It also has a parser that reads the text
back.

Three consequences of the code as written:
- The remainder truncates, so `toString` fails below zero except on
  multiples of 12 (`NegativeNameFails`, `DefaultNames`).
- An empty buffer has no first sample, so `moveTo` receives a NaN
  coordinate, which the 2D context ignores. The loop does not run and the
  stroke draws nothing, so the surface is left blank (`DrawArray`).
- Only vertex 0 is not inverted, so the samples `[0, 85, 170, 255]` on a
  400×200 surface give `(0,0), (100,132.8125), (200,66.40625), (300,0)`
  (`RampExample`).

## Model

| member | source | states |
|---|---|---|
| `Decimal.IntText` | tuner.js:34 | The text of the octave number is non-empty and starts with a minus sign exactly when the number is negative, and with a digit otherwise |
| `Decimal.DigitsRoundTrip` | tuner.js:34 | Reading back the digits of any natural number gives that number |
| `Decimal.IntTextRoundTrip` | tuner.js:34 | Reading back the text of any integer, negative ones included, gives that integer |
| `Decimal.IntTextInjective` | tuner.js:34 | Two integers have the same text exactly when they are equal |
| `Notes.DefaultNote` | tuner.js:14-21 | A note built from a position alone keeps that position and takes the default reference, 440 Hz at position 48 |
| `Notes.NameIndex` | tuner.js:33 | `n % 12` truncates toward zero: the index lies in -11..11, differs from `n` by a multiple of 12, and has the sign of `n` |
| `Notes.Octave` | tuner.js:32 | The octave is the floor of `(n + 9) / 12`: `12*o <= n + 9 < 12*o + 12` |
| `Notes.ToString` | tuner.js:28-35 | A name exists exactly when `n >= 0` or `n` is a multiple of 12; it is then the letter at the mathematical `n mod 12` followed by the octave's text; otherwise the lookup fails on the index `n mod 12 - 12` |
| `Notes.ToCents` | tuner.js:37-40 | The cents value is a multiple of 100 whose quotient by 100 is the position |
| `Notes.ToHertz` | tuner.js:23-26 | At the reference position the frequency is the reference frequency, given `pow(2, 0) = 1` |
| `Notes.DefaultReferenceHertz` | tuner.js:16-26 | A default note at position 48 sounds at 440 Hz, given `pow(2, 0) = 1` |
| `Notes.DefaultNames` | tuner.js:16-34 | With the default reference, positions 48, 0 and -12 are named `A4`, `A0` and `A-1`, and the name of position -1 fails on index -1 |
| `Notes.OctaveShift` | tuner.js:30-34 | Where a name exists, twelve semitones up keeps the letter and raises the octave by exactly one |
| `Notes.OctaveStepsAtC` | tuner.js:30-32 | The letter at `n` is C exactly when `n mod 12 = 3`; the octave goes up by one from `n - 1` to `n` exactly then, and stays the same otherwise |
| `Notes.NegativeNameFails` | tuner.js:33-34 | For any note at a negative `n` that is not a multiple of 12, whatever its reference, the index is in -11..-1 and `toString` fails on it |
| `Notes.CentsStep` | tuner.js:37-40 | Cent values differ by exactly 100 per semitone, for negative positions too |
| `Notes.LetterIndex` | tuner.js:30-31 | Reads a letter back as its index in the name table, and fails only on text that is not in the table |
| `Notes.PositionFromParts` | tuner.js:32-33 | The letter index and the octave together determine the position |
| `Notes.NameRoundTrip` | tuner.js:28-35 | Every name `toString` produces reads back as the position it was made from |
| `Notes.NamesIdentifyPositions` | tuner.js:28-35 | Two notes whose names exist have the same name exactly when they are at the same position |
| `Render.Context2D.ClearSurface` | tuner.js:64 | `clearRect` over the whole canvas leaves no stroked polyline and keeps the size and the current path |
| `Render.Context2D.BeginPath` | tuner.js:69 | `beginPath` empties the current path and keeps the image |
| `Render.Context2D.MoveTo` | tuner.js:70 | `moveTo` starts a new subpath at the given point |
| `Render.Context2D.LineTo` | tuner.js:74 | `lineTo` extends the last subpath by the given point, or starts one when there is none |
| `Render.Context2D.Stroke` | tuner.js:77 | `stroke` adds the subpaths of the current path to the image |
| `Render.Polyline` | tuner.js:58-78 | The traced polyline has exactly one vertex per sample |
| `Render.DrawArray` | tuner.js:58-78 | After the call the surface shows exactly `[Polyline(data, W, H)]` for a non-empty buffer, whatever it showed before, and the path is that single polyline (one `moveTo` and `N - 1` `lineTo`s); for an empty buffer the surface and the path are empty; the size is unchanged |
| `Render.PolylineVertices` | tuner.js:62-75 | Vertex `i` has `x = i*W/N`; vertex 0 has `y = data[0]*H/256`; every later vertex has `y = (255 - data[i])*H/256` |
| `Render.XStrictlyIncreasing` | tuner.js:62-72 | On a surface of positive width the x coordinates are non-negative, strictly increasing, and below the width |
| `Render.YBounds` | tuner.js:70-73 | Every y coordinate lies in `[0, 255*H/256]` |
| `Render.RampExample` | tuner.js:58-78 | Samples `[0, 85, 170, 255]` on 400×200 give `(0,0), (100,132.8125), (200,66.40625), (300,0)` |
| `Render.ReversedRampExample` | tuner.js:70-73 | Samples `[255, 170, 85, 0]` on 400×200 give `(0,199.21875), (100,66.40625), (200,132.8125), (300,199.21875)`, so reversing the samples does not mirror the polyline |

## Left out

- Notes.ToHertz: `Math.pow` with a fractional exponent is floating-point arithmetic. It is a parameter of the function, and only the reference-position value is proved. The octave-doubling of frequencies is not proved.
- Floating-point rounding: the model uses exact rationals for coordinates and exact integers for positions, octaves and cents. So it does not capture the drift of the repeated `x += dx` (tuner.js:72), the rounding of the `/ 256.0` divisions, or the loss of precision for positions beyond 2^53 (or beyond about 2^46 for `100 * n`).
- Non-integer positions: the constructor accepts them (tuner.js:16), but `toString` would then index the table with a fraction. Positions are integers here.
- Render.DrawArray: NaN coordinates are not modelled. For an empty buffer the model leaves out the `moveTo(0, NaN)` call, which a 2D context ignores, instead of passing NaN to it.
- Render.Context2D.ClearSurface: only the whole-canvas `clearRect(0, 0, width, height)` that `draw_array` issues is modelled. The image is kept as the list of stroked polylines, not rasterised pixels.
- Line width and stroke colour (tuner.js:66-67) are drawing style with no effect on the geometry.
- `setup_visualization` and its `draw` loop (tuner.js:86-110) are not modelled. They configure `fftSize`, read the analyser node's byte buffers and reschedule through `requestAnimationFrame`, all of which are host audio and scheduling.
- `create_GUI`, `create_audiograph`, `main` and the `getUserMedia` vendor-prefix selection (tuner.js:9-12, 46-52, 113-135) are not modelled. They are DOM construction, microphone permission callbacks and audio-context set-up.
