# rusttracer core in Dafny

This project models two sequential pieces of the rusttracer ray tracer.

- **The PPM pixel buffer** (`src/ppm.rs`). An image is a flat byte buffer of
  `3 * height * width` bytes, one RGB triple per pixel, row after row. Around
  the buffer sit:
  - the offset computation with its bounds check;
  - in-place pixel reads and writes;
  - the serialiser that puts the ASCII header `P6 <width> <height> 255\n`
    in front of the raw bytes.

  Module `PpmImage` (`ppm.dfy`) holds the model. `Ppm` is a class over an
  `array<u8>`, with the dimensions as `const` fields, since nothing reassigns
  them. Each method is proved against a specification function on the byte
  sequence: `Offset`, `Pixel`, `Painted`, and `Header` with its parser
  `ParseP6`.
- **The scene** (`src/raytracing/scene.rs`). A scene holds a list of spheres,
  a list of point lights and an ambient coefficient. It provides:
  - the nearest-hit scan `trace_scene`;
  - the per-light shading loop of `compute_color`: the shadow test, the
    Lambert and specular accumulation, and the clamp to 255 after every
    light.

  Module `Raytracing` (`scene.dfy`) holds the model. `Scene` is a class whose
  `spheres` field `AddSphere` extends. `TraceScene` and `ComputeColor` are
  the source's loops, proved equal to the left folds `Nearest` and `Shade`.
  The properties are proved as lemmas about those folds.

The pieces of the scene that need a square root are not computed: sphere
intersection, vector length and normalisation. They are the three fields of a
`Numerics` value passed to the operations. The general properties hold
whatever those fields return. The lemmas about the unit test's
configuration (`ZeroViewNoSpecular`, `LambertAlongNormal`,
`OverheadLightExample`, `OverheadLightPass`) take as preconditions the
values of `normalize` they need, and `OverheadLightPass` also the result of
`intersect` on the test's shadow ray. Everything else is exact real
arithmetic: sums, scaling,
dot product, reflection, `max(_, 0)`, `min(_, 255)` and `powi`.
`Wrappers` (`wrappers.dfy`) holds the `Option` type.

## Model

| member | source | states |
|---|---|---|
| PpmImage.BufferSize | src/ppm.rs:37-39 | The buffer size is a multiple of 3, and it is 0 exactly when the height or the width is 0. |
| PpmImage.Offset | src/ppm.rs:41-48 | The offset is `Some(3 * (y * width + x))` exactly when the linear index `y * width + x` is below `height * width`, otherwise `None`. An accepted offset is a multiple of 3, and `offset + 2` lies inside the buffer, so the three indexed reads and writes stay in bounds. |
| PpmImage.InImageAccepted | src/ppm.rs:41-48 | Every pixel with `x < width` and `y < height` has an offset. |
| PpmImage.RowPastHeightRejected | src/ppm.rs:42-43 | A row at or past the height is always rejected. |
| PpmImage.ColumnPastWidthAliasesNextRow | src/ppm.rs:42-43 | The check is on the linear offset, not per axis: a column at or past the width gets the same answer as pixel `(x - width, y + 1)`, and so aliases it when accepted. |
| PpmImage.BufferSizeAsWritten | src/ppm.rs:37-39 | The buffer size in wrapping u32 arithmetic equals the exact size whenever the exact size fits in 32 bits. |
| PpmImage.OffsetAsWritten | src/ppm.rs:41-48 | The offset as the source computes it, in wrapping u32 arithmetic, checked against the buffer size computed the same way: an accepted offset is below that buffer size. |
| PpmImage.AsWrittenAgreesWithoutOverflow | src/ppm.rs:37-48 | When neither the buffer size nor the offset overflows, the wrapping computation and the exact one agree. |
| PpmImage.AsWrittenOverrunsBuffer | src/ppm.rs:42-43 | On a 1 x 1 image, x = 0x5555_5556 makes `x * 3` wrap to 2. The check then accepts offset 2, although `offset + 2` is outside the 3-byte buffer and the exact offset is rejected. |
| PpmImage.Pixel | src/ppm.rs:50-60 | A pixel can be read exactly when its offset is accepted. |
| PpmImage.Painted | src/ppm.rs:62-72 | Writing a pixel keeps the buffer length. With a rejected offset nothing changes. With an accepted one the pixel reads back as the written colour, and every byte outside `[offset, offset + 2]` is unchanged. |
| PpmImage.PaintedOtherPixel | src/ppm.rs:50-72 | Writing one pixel leaves every pixel with a different offset as it was. |
| PpmImage.PaintedTwiceLastWins | src/ppm.rs:62-72 | Writing the same pixel twice is the same as writing it once with the second colour. |
| PpmImage.Decimal | src/ppm.rs:85 | The decimal numeral of a number is all ASCII digits, with no space or newline. |
| PpmImage.DecimalRoundTrip | src/ppm.rs:85 | Reading the decimal numeral back gives the number. |
| PpmImage.Header | src/ppm.rs:85 | The header is 9 bytes longer than the two numerals, and it ends in a newline. |
| PpmImage.SplitAtFirst | src/ppm.rs:85 | Splitting at a separator that does not occur in the first part recovers both parts. |
| PpmImage.HeaderRoundTrip | src/ppm.rs:84-88 | Parsing a header followed by any pixel bytes recovers the width, the height and the bytes unchanged. |
| PpmImage.Ppm.constructor | src/ppm.rs:27-35 | A new image keeps its dimensions and has exactly `3 * height * width` bytes, all zero. |
| PpmImage.Ppm.GetPixel | src/ppm.rs:50-60 | Reading a pixel gives `Pixel` of the current bytes: a colour exactly when the offset is accepted. |
| PpmImage.Ppm.SetPixel | src/ppm.rs:62-72 | The result is true exactly when the offset is accepted. The new bytes are `Painted` of the old ones: the pixel then reads back as the colour, and a false result leaves the bytes unchanged. |
| PpmImage.Ppm.GetBytes | src/ppm.rs:84-88 | The bytes are the header followed by the pixel data unchanged. Their length is the header length plus `3 * width * height`, and parsing them recovers width, height and data. |
| Raytracing.NearestIsFirstMinimum | src/raytracing/scene.rs:26-45 | The scan returns `(None, f64::MAX)` when no sphere is hit closer than f64::MAX. Otherwise it returns a sphere whose hit is exactly `t`, with `t < f64::MAX`, no sphere hit closer than `t`, and no earlier sphere hit at `t` or closer: ties go to the first, by the strict `<`. |
| Raytracing.NearestFindsHitIff | src/raytracing/scene.rs:26-45 | The scan reports a sphere if and only if some sphere is hit closer than f64::MAX. |
| Raytracing.NearestAfterAddedSpheres | src/raytracing/scene.rs:22-45 | Appending spheres never moves the nearest hit farther away. The earlier result is kept unchanged when no appended sphere is hit strictly closer than it. A result that changes reports one of the appended spheres. |
| Raytracing.Scene.constructor | src/raytracing/scene.rs:14-20 | A new scene has no spheres and the given lights and ambient coefficient. |
| Raytracing.Scene.AddSphere | src/raytracing/scene.rs:22-24 | The sphere is appended at the end. Earlier spheres, the lights and the ambient coefficient are unchanged. |
| Raytracing.Scene.TraceScene | src/raytracing/scene.rs:26-45 | The loop's result is `Nearest` of the sphere list, the scan whose properties the lemmas above state. |
| Raytracing.Boost | src/raytracing/scene.rs:83 | `color + color * k` with a non-negative colour and `k >= 0` is non-negative and at least the colour in every channel. |
| Raytracing.LambertShading | src/raytracing/scene.rs:99-109 | The Lambert term is never negative, and it equals the scaled cosine whenever that is non-negative. |
| Raytracing.SpecularShading | src/raytracing/scene.rs:111-134 | The specular term is never negative. |
| Raytracing.VisibleIffUnoccluded | src/raytracing/scene.rs:70-75 | The shadow test passes if and only if no sphere is hit by the shadow ray at a parameter below f64::MAX and no greater than `t_light`, the length of `point_to_light`. The ray's direction is the unnormalised `point_to_light`, so the light itself sits at parameter 1. |
| Raytracing.HitBeyondLightOccludes | src/raytracing/scene.rs:70-75 | A sphere hit at any parameter between 1 and `t_light` shadows the light, although such a hit lies beyond the light. |
| Raytracing.ShadowBeyondLightExample | src/raytracing/scene.rs:70-75 | From the origin to a light at (0, 2, 0), a hit at parameter 1.5 lies at (0, 3, 0), farther than the light. The test as written reports the light occluded; the intended test reports it visible. |
| Raytracing.VisibleAsIntendedIffUnoccluded | src/raytracing/scene.rs:73-75 | The intended test (no hit, or a hit parameter above 1) passes if and only if no sphere is hit between the point and the light: at a parameter below f64::MAX and no greater than 1. |
| Raytracing.Illuminated | src/raytracing/scene.rs:77-88 | Shading by a visible light never darkens a non-negative colour and keeps it non-negative, given a non-negative intensity. |
| Raytracing.ApplyLight | src/raytracing/scene.rs:62-94 | After one light every channel is at most 255. An occluded light leaves the colour as it was apart from the clamp. With a non-negative colour and intensity the result is non-negative and at least the clamped colour. |
| Raytracing.Shade | src/raytracing/scene.rs:59-96 | With at least one light every channel is at most 255. With a non-negative sphere colour, ambient coefficient and intensities every channel is non-negative. |
| Raytracing.Scene.ComputeColor | src/raytracing/scene.rs:47-97 | The loop's result is `Shade` of the scene's lights, so it is clamped with at least one light and non-negative for non-negative inputs. With no lights it is the sphere's colour times the ambient coefficient, unclamped. |
| Raytracing.Scene.ShadeByLight | src/raytracing/scene.rs:62-94 | One pass of the light loop (shadow ray, shadow test, the lit branch, the per-channel `min(255)`) computes `ApplyLight`. |
| Raytracing.Scene.Illuminate | src/raytracing/scene.rs:76-88 | The lit branch (normal, Lambert contribution, specular contribution) computes `Illuminated`. |
| Raytracing.ZeroViewNoSpecular | src/raytracing/scene.rs:125-133 | With a zero view direction whose normalisation is zero, the specular term is 0 whatever the light. |
| Raytracing.LambertAlongNormal | src/raytracing/scene.rs:105-108 | A light whose normalised direction is the normal, for any unit normal, gives the full Lambertian coefficient 1.7. |
| Raytracing.OverheadLightExample | src/raytracing/scene.rs:141-158 | The lit branch in the unit test's configuration brightens the ambient red 25.5 to 77.52 (`25.5 * (1 + 1.7 * 1.2)`), not to the 96.9 the test expects. |
| Raytracing.OverheadLightPass | src/raytracing/scene.rs:61-94 | The whole light pass of the unit test: given that `Sphere::intersect` reports no hit on the shadow ray (its roots there are 0 and -1/3, both below the 1e-5 cut-off), the light passes the shadow test, and after the clamp the colour is 77.52 in red. |

## Left out

- `PPM::write_file` (src/ppm.rs:74-81) is file-system I/O. The bytes it writes are the ones `GetBytes` returns.
- `PpmImage.Ppm.constructor` requires `3 * height * width < 2^32`. In the source that product is u32 arithmetic, which panics in a debug build and wraps in a release build. The model covers only images whose size fits.
- `PpmImage.AsWrittenAgreesWithoutOverflow` also requires the exact buffer size to fit in 32 bits, as the class's `Valid` does. Once the buffer size wraps, the two checks compare against different bounds.
- `PpmImage.Ppm.GetPixel`, `PpmImage.Ppm.SetPixel`: both use the exact offset `PpmImage.Offset`, not the wrapping `PpmImage.OffsetAsWritten`. See Findings.
- Colours are `Rgb` triples of bytes (`u8` as a subset of `nat`). The source's `RGB::new` is the datatype constructor.
- Floating point: the scene is modelled over exact reals. Rounding, infinities and NaN are not modelled. The f64 sentinel f64::MAX is the exact value of the largest finite double.
- `Sphere::intersect`, `Vector3::len` and `Vector3::normalize` (src/shapes/sphere.rs, src/math/vector3.rs) need a square root. They are the fields of a `Numerics` value. The general lemmas hold for any values of these fields; `Raytracing.ZeroViewNoSpecular`, `Raytracing.LambertAlongNormal` and `Raytracing.OverheadLightExample` fix the values of `normalize` they need as preconditions, and `Raytracing.OverheadLightPass` also fixes `intersect` on the test's shadow ray.
- Vector arithmetic (src/math/vector3.rs) is written out only where the scene uses it: add, subtract, scale, dot product, inverse and reflect.
- `Raytracing.Scene.TraceScene`: the source returns a reference to the hit sphere. The model returns its index in the list, which identifies it even among equal spheres.
- `Raytracing.Scene.ShadeByLight`, `Raytracing.Scene.Illuminate`: the body of compute_color's light loop and its lit branch are split into these helper methods. The source has them inline.
- `Raytracing.SpecularShading`: the source's `powi` exponent is an `i32`. The model takes a `nat`, as the only exponent used is 25.
- `Raytracing.OverheadLightExample` covers only the lit branch of the unit test's one light pass (src/raytracing/scene.rs:141-158). `Raytracing.OverheadLightPass` adds the shadow test and the clamp. Neither covers the whole compute_color call. That the shadow ray hits nothing rests on reading `Sphere::intersect` (src/shapes/sphere.rs:52-68), which this model does not compute, so it is a precondition of `Raytracing.OverheadLightPass`. The values the floating-point geometry takes are its preconditions on `num`. Normalising the zero view vector gives NaN in floating point; its stand-in here is the zero vector. Either way the specular term comes out 0.
- The camera (src/raytracing/camera.rs, src/camera.rs) and the render loop and argument parsing of src/main.rs are not part of this model. Neither is the PNG output of src/util/image_output.rs.
- src/raytracing/light.rs is a plain data holder and becomes the `Light` datatype. src/raytracing/mod.rs only re-exports modules.

## Findings

| source | as written | input that shows it | evidently intended | confidence | as-written member | corrected member |
|---|---|---|---|---|---|---|
| src/ppm.rs:42-43 | `(y * width * 3) + (x * 3)` is computed in u32. In a release build it wraps, so a column far outside the image can produce a small offset that passes the `< buffer_size` check. The reads and writes at `offset + 1` and `offset + 2` then index past the buffer and panic. | height = width = 1, x = 0x5555_5556, y = 0: `x * 3` wraps to 2, and offset 2 is accepted for a 3-byte buffer. | Any pixel outside the buffer is rejected, so `get_pixel` returns `None` and `set_pixel` returns `false`. | high for release builds (debug builds panic on the overflow itself); not executed | PpmImage.AsWrittenOverrunsBuffer | PpmImage.Offset |
| src/raytracing/scene.rs:75 | `t_light < t_scene` compares the distance to the light with the ray parameter of the hit. The shadow ray's direction is the unnormalised `point_to_light`, so the light is at parameter 1 and a hit at parameter t is at distance `t * t_light`. The two agree only when `t_light` is 1. | A point at the origin, a light at (0, 2, 0) so `t_light = 2`, and a sphere hit at parameter 1.5, at (0, 3, 0) beyond the light: `2 < 1.5` fails and the light counts as occluded. | As the comment at lines 73-74 says, the light is shaded only when no object lies between the point and the light: a hit blocks only at a parameter of at most 1. | plausible: src/raytracing/ray.rs is not part of this model, and if `Ray::new` normalised its direction the test as written would be right; not executed | Raytracing.ShadowBeyondLightExample | Raytracing.VisibleAsIntendedIffUnoccluded |

The unit test of compute_color (src/raytracing/scene.rs:141-158) expects `red * 0.1 + red * (0.1 * 2.8)`. The code's coefficients give `red * 0.1 * (1 + 1.7 * 1.2)` instead, so the expected value does not match the code. The model follows the code; `Raytracing.OverheadLightPass` states the value after the test's light pass, given that the shadow ray hits nothing.

The light loop (`Raytracing.ApplyLight`, `Raytracing.Shade`, `Raytracing.Scene.ShadeByLight`, `Raytracing.Scene.ComputeColor`) keeps the shadow test as written at src/raytracing/scene.rs:75, so the model renders what the code renders. `Raytracing.VisibleAsIntended` is the corrected test, and `Raytracing.HitBeyondLightOccludes` states in general where the two part.
