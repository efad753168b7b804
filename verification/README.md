# Fit-and-centre placement of the poster service

The service takes an uploaded image and draws it on a fixed 1000 x 700 canvas
over a blurred background. The only arithmetic in that path is the placement
done by the `/process` handler in `index.js`:

- the scale is the smaller of `targetWidth / width` and `targetHeight / height`;
- the new size is each side times the scale, rounded with `Math.round`;
- the offset is half of the spare width and height, rounded down with `Math.floor`.

`fit.dfy` (module `Fit`) models this as pure functions. The canvas size is a
parameter, and `Process` is the handler's instance with the constants 1000 and
700. Scale and divisions are exact `real`s. `Math.round` is `Floor(v + 1/2)`, so
halves round up as in JavaScript. Source sides must be positive, because the
handler divides by them without a guard.

The model proves the following:

- the resized image fits the canvas;
- one side fills the canvas exactly;
- the scale is the largest factor that fits;
- the aspect ratio is kept to within rounding;
- the offsets centre the image to within one pixel;
- a small source is enlarged, because the scale is not capped at 1.

Three concrete cases are worked out. The last one shows that a side can round
to zero.

The handler scales only by the smaller of the two ratios and never clamps the
resized size. `ScaledSize` proves that with exact arithmetic the resized size
never exceeds the canvas, so no clamp is needed.

## Model

| member | source | states |
|---|---|---|
| `Fit.Floor` | index.js:35-36 | `Math.floor`: the result is the greatest integer not above its argument |
| `Fit.Round` | index.js:27-28 | `Math.round`: the result is the integer in (v - 1/2, v + 1/2], so halves go up |
| `Fit.Min` | index.js:26 | `Math.min`: the result is below both arguments and equals one of them |
| `Fit.RoundAtMost` | index.js:27-28 | rounding a value at most an integer n gives at most n |
| `Fit.RoundAtLeast` | index.js:27-28 | rounding a value at least an integer n gives at least n |
| `Fit.RoundOfInt` | index.js:27-28 | rounding an integer gives it back |
| `Fit.Scale` | index.js:26 | the scale is non-negative; both sides times the scale fit the canvas; the scale equals one of the two ratios |
| `Fit.ScaleIsLargest` | index.js:25-26 | any factor that keeps both sides within the canvas is at most the scale, so the scale is the largest that fits |
| `Fit.ScaledSize` | index.js:26-28 | the resized width and height are between 0 and the canvas width and height |
| `Fit.SizeTouchesCanvas` | index.js:26-28 | if the width ratio is the smaller, the new width equals the canvas width; otherwise the new height equals the canvas height |
| `Fit.AspectPreserved` | index.js:25-28 | 2 * abs(newWidth * h - newHeight * w) <= w + h, and abs(newWidth * h - newHeight * w) <= max(w, h) |
| `Fit.SmallSourceEnlarged` | index.js:22-28 | a source no larger than the canvas gets scale >= 1 and a resized size at least its own size |
| `Fit.CentreOffset` | index.js:35-36 | the offset is >= 0, the image ends inside the canvas, and the far margin equals the offset or the offset + 1 |
| `Fit.FitAndCenter` | index.js:25-36 | the placement has the resized size; on both axes the offset is >= 0, the image stays inside the canvas, and the image is centred to within one pixel |
| `Fit.FitTouchesCanvas` | index.js:26-36 | on the side that fills the canvas, the offset is 0 |
| `Fit.Process` | index.js:22-36 | on the 1000 x 700 canvas the size fits, one side is 1000 wide (x = 0) or 700 high (y = 0), and 0 <= x <= 500, 0 <= y <= 350 |
| `Fit.OnePixelSource` | index.js:22-36 | a 1 x 1 source gets scale 700, size 700 x 700, offset (150, 0) |
| `Fit.WideSource` | index.js:22-36 | a 2000 x 1000 source gets scale 0.5, size 1000 x 500, offset (0, 100) |
| `Fit.ThinSourceLosesHeight` | index.js:22-36 | a 10000 x 1 source gets size 1000 x 0, offset (0, 350): nothing keeps a side from rounding to 0 |

## Left out

- IEEE-754 doubles: the divisions, `Math.min` and `Math.round` are modelled on exact reals, so results differ only where double rounding would move a value across a half.
- Zero-sized sources: the handler divides by the source sides (`Infinity` or `NaN` in JavaScript). The model requires positive sides instead.
- Upload handling, request validation, JSON responses and the server start (index.js:1-20, 48-66): HTTP plumbing.
- Creating the output directory and writing the timestamped JPEG at quality 85 (index.js:39-46): file I/O and the clock.
- The pixel work of `image.resize` and `background.composite` (index.js:30, 37): it happens inside the image library, which is not part of this model.
- `generateGradientCanvas` (utils/colors.js:6-23): a fill with `#f09534`, a stretched copy blurred with radius 35 and an overlay blend. Every step is a call into the image library, which is not part of this model.
- `async`/`await` sequencing: it does not change the computed values.
