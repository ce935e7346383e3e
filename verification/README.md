# IndexMapping: a verified model of the index-mapping core

IndexMapping converts between flat pixel-buffer offsets and `(x, y, z)`
pixel coordinates, and transposes flat byte buffers of 1, 3 or 4 channels
per pixel. The behaviour pinned down by the unit tests in
`test/test_mapping.py` is modelled in five Dafny modules:

- `Errors`: argument conversion at the call boundary. The compiled functions
  declare `unsigned int` (32-bit) and `unsigned short` (16-bit) parameters.
  A negative or too large Python integer raises `OverflowError`, parameter by
  parameter, left to right. The model returns `Result<T>`, whose error side is
  `OverflowError(param)` or `ZeroDivisionError`.
- `Arith`: the div/mod facts about the row-major layout
  `(row * cols + col) * chans + ch` that every index formula rests on.
- `Codec`: `to1d` (`To1d`) and `to3d` (`To3d`). They are built on the exact
  formulas `LinearOffset` (`y*width*depth + x*depth + z`) and `Coords`
  (division with remainder).
- `VirtualMap`: `vmap_buffer` (`VmapBuffer`). Its closed form `SourceOffset`
  decomposes output offset `i` into `j = i/(w*d)`, `i' = (i/d)%w` and
  `k = i%d`, and then reads source offset `(i'*h + j)*d + k`.
- `Transposer`: `vfb`, `vfb_rgb` and `vfb_rgba` (`Vfb`, `VfbRgb`,
  `VfbRgba`). They are methods over `array<bv8>` that fill the caller's target
  array in one loop and return it. They are proved against the function
  `Transposed`. The predicate `IsTransposeOf` is the reference: the source,
  read as shape `(width, height, depth)`, has its first two axes swapped and
  is flattened.

The tests fix three behaviours that the model follows:

- `z` is range-checked as a 32-bit value: `z = 4294967295` is accepted and `2^32` is rejected (test/test_mapping.py:70-73).
- The result of `to1d` stays below 2^32 even when the exact formula is larger (test/test_mapping.py:73-79). The model computes it in `unsigned int` arithmetic, modulo 2^32. `Codec.To1dWrapLosesRow` shows that, because of the wrap, the round trip fails once a grid no longer fits in 32 bits.
- `to3d(2800, 800, 3)` is `(133, 1, 1)`, which follows from the reference formula at test/test_mapping.py:169-172.

The parameter carried by `OverflowError(param)` and the "first failing argument wins" order are refinements the model adds. The tests (test/test_mapping.py:63-72, 157-162, 266-269, 344-351) check only the exception type, so neither can be observed from outside.

## Model

| member | source | states |
|---|---|---|
| `Errors.FirstOverflow` | test/test_mapping.py:63-72 | the reported parameter is the first one, in argument order, whose value is negative or above its type's maximum; no parameter is reported if and only if all of them fit |
| `Codec.Coords` | test/test_mapping.py:169-172 | the div/mod decomposition gives `x < width` and `z < depth`, and it encodes back to the same offset |
| `Codec.To1d` | test/test_mapping.py:56-79 | fails with `OverflowError` exactly when x, y, z or width is outside [0, 2^32-1] or depth is outside [0, 65535], naming the first such argument; otherwise the result is `y*width*depth + x*depth + z` reduced modulo 2^32 (unsigned 32-bit arithmetic), which is the formula itself whenever it is below 2^32 |
| `Codec.To3d` | test/test_mapping.py:154-176 | fails with `OverflowError` on an out-of-range offset, width or depth (first one wins), and with `ZeroDivisionError` on a zero width or depth; otherwise returns `x < width` and `z < depth` whose offset is the input |
| `Codec.LinearOffsetInGrid` | test/test_mapping.py:179-186 | every cell of a `width x height x depth` grid has an offset below `width*height*depth` |
| `Codec.CoordsInGrid` | test/test_mapping.py:186-189 | every offset below `width*height*depth` decodes to a row below `height` (so all dimensions are positive) |
| `Codec.CoordsUnique` | test/test_mapping.py:81-90 | decoding the offset of an in-range cell gives back exactly that cell |
| `Codec.To3dOfTo1d` | test/test_mapping.py:81-90 | for `x < w`, `y < h`, `z < d` and `w*h*d <= 2^32`, `to3d(to1d(x, y, z, w, d), w, d) == (x, y, z)` |
| `Codec.To1dOfTo3d` | test/test_mapping.py:178-189 | for every 32-bit offset, positive width and positive 16-bit depth, `to1d(to3d(r, w, d), w, d) == r` |
| `Codec.To1dExample` | test/test_mapping.py:56-62 | `to1d(5, 6, 3, 800, 3) == 14418` |
| `Codec.To3dExample` | test/test_mapping.py:164-176 | `to3d(2800, 800, 3) == (133, 1, 1)` |
| `Codec.To1dMaximalArguments` | test/test_mapping.py:73-79 | all-maximum arguments are accepted, and the exact formula exceeds 2^32 - 1 there |
| `Codec.To1dWrapLosesRow` | test/test_mapping.py:73-79 | because the result wraps, whenever `width*depth == 2^32` (a 2^31-wide grid of depth 2, say) pixel (0, 1) encodes to offset 0, and that decodes to pixel (0, 0) |
| `VirtualMap.SourceOffset` | test/test_mapping.py:321-342 | the closed form maps every offset inside the `w*h*d` grid to an offset inside it |
| `VirtualMap.SourceOffsetAt` | test/test_mapping.py:244-247 | the source offset of output cell `(col, row, k)` is the source grid's offset of cell `(row, col, k)`: decode against the transposed shape, re-encode against the original shape |
| `VirtualMap.SourceOffsetInverse` | test/test_mapping.py:321-342 | mapping again with width and height exchanged returns the original offset, so the mapping permutes the grid's offsets |
| `VirtualMap.VmapBuffer` | test/test_mapping.py:344-353 | fails with `OverflowError` on an out-of-range i, width, height (32-bit) or depth (16-bit), first one wins, and with `ZeroDivisionError` on a zero width or depth; otherwise it returns the closed form, which for `i < w*h*d` lies in the grid and re-encodes the decoded output cell with rows and columns swapped |
| `VirtualMap.VmapBufferExample` | test/test_mapping.py:321-327 | `vmap_buffer(3, 3, 3, 3) == 9` |
| `Transposer.Transposed` | test/test_mapping.py:242-247 | the buffer built by copying each output offset from its virtual-map source offset is the axis-swapped source |
| `Transposer.TransposeUnique` | test/test_mapping.py:237-247 | any buffer that is the axis-swapped source equals `Transposed`, so the target's prior contents cannot matter |
| `Transposer.TransposeTwice` | test/test_mapping.py:244-247 | transposing with `(w, h)` and then with `(h, w)` returns the source |
| `Transposer.VmapBufferAgrees` | test/test_mapping.py:321-342 | for every in-range output offset `i` of a transposed buffer, `vmap_buffer(i, w, h, d)` succeeds and names the source offset whose byte is at `out[i]` |
| `Transposer.RgbRowSwapExample` | test/test_mapping.py:234-247 | in a 3 x 3 RGB transpose, output offset 3 holds source offset 9 |
| `Transposer.TransposeInto` | test/test_mapping.py:242-247 | after one pass over the target, the target holds `Transposed(source)` |
| `Transposer.TransposeChecked` | test/test_mapping.py:266-269 | rejects an out-of-range width, then height, with `OverflowError` and leaves the target untouched; otherwise returns the target holding the transpose |
| `Transposer.Vfb` | test/test_mapping.py:603-618 | depth 1: the same errors, or the target returned holding the axis-swapped source |
| `Transposer.VfbRgb` | test/test_mapping.py:231-269 | depth 3: the same errors, or the target returned holding the axis-swapped source |
| `Transposer.VfbRgba` | test/test_mapping.py:396-439 | depth 4: the same errors, or the target returned holding the axis-swapped source |

## Left out

- Channel splitter (`rgb_inplace` and related): `mapcfunctions.pyx` is not part of this model. Its only caller, `test/test_split.py`, is a display loop with no assertions, so it does not fix the result's layout.
- Element-type and rank errors (`TypeError` for Python lists, `ValueError` for 2-D or `float32` buffers, test/test_mapping.py:270-273 and 416-420): these come from memoryview coercion. The model's `array<bv8>` parameters rule such buffers out by type.
- `Transposer.Vfb`, `Transposer.VfbRgb`, `Transposer.VfbRgba`: when width and height are in range, both buffers must hold exactly `width*height*depth` bytes, and that is a precondition. The test at test/test_mapping.py:406-410 calls `vfb_rgba` with 27-byte buffers for a 3 x 3 RGBA grid and expects an ndarray back. That call is outside the model, because what the compiled loop does with such buffers is not shown.
- `Transposer.TransposeChecked`: source and target must be distinct arrays. The in-place (aliased) case is not modelled.
- `Transposer.TransposeChecked` (and `Vfb`, `VfbRgb`, `VfbRgba`): the model's index arithmetic is exact. Width and height are 32-bit, so offsets up to `w*h*d - 1` can reach 2^32 or more. For buffers of 2^32 bytes or more, the model claims nothing about the compiled loop, whose `unsigned int` index arithmetic would wrap.
- `VirtualMap.VmapBuffer`: the result is the exact integer. For offsets outside the grid, any 32-bit wrap-around in the compiled arithmetic (`mapping.pyx` is not part of this model) is not reproduced. Inside the grid the value is below `w*h*d`, and no wrap occurs when `w*h*d < 2^32`. At the boundary `w*d == 2^32` (for example `h = 1`, `w = 2^31`, `d = 2`), the divisor `w*d` would be 0 in `unsigned int`. The model returns the exact result there instead.
- `Codec.To3d`, `VirtualMap.VmapBuffer`: a zero width or depth is modelled as `ZeroDivisionError`, the behaviour of a checked division. The compiled division is not part of this model.
- Parallel execution (OpenMP `prange`, compiler flags): the per-element copies are independent, and the model runs them sequentially.
- Packaging and build scripts, the benchmarks in `test/profiling.py`, and the display tests (image loading, windows, timing loops): these are I/O and state no behaviour of the core.
- The returned numpy array is modelled as the target array itself.
