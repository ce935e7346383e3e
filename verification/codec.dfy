/**
 * The coordinate codec: `to1d` flattens a pixel coordinate `(x, y, z)` of a
 * grid `width` pixels wide with `depth` channels per pixel into a buffer
 * offset, and `to3d` recovers the coordinate from the offset.  Channels are
 * innermost, then columns, then rows.
 */
module Codec {
  import opened Errors
  import Arith

  datatype Coord = Coord(x: int, y: int, z: int)

  /** The offset of `(x, y, z)` as an exact integer: `y*width*depth + x*depth + z`. */
  function LinearOffset(x: nat, y: nat, z: nat, width: nat, depth: nat): nat
  {
    y * width * depth + x * depth + z
  }

  /** The coordinate of `offset` by division with remainder; it encodes back to `offset`. */
  function Coords(offset: nat, width: nat, depth: nat): (c: Coord)
    requires width > 0 && depth > 0
    ensures 0 <= c.x < width && 0 <= c.y && 0 <= c.z < depth
    ensures LinearOffset(c.x, c.y, c.z, width, depth) == offset
  {
    Arith.LayoutSplit(offset, width, depth);
    Coord((offset / depth) % width, (offset / depth) / width, offset % depth)
  }

  /**
   * `to1d(x, y, z, width, depth)`: x, y, z and width are C `unsigned int`,
   * depth is `unsigned short`; the result is computed in `unsigned int`
   * arithmetic and so wraps modulo 2^32.
   */
  function To1d(x: int, y: int, z: int, width: int, depth: int): (r: Result<u32>)
    ensures r.Success? <==> IsU32(x) && IsU32(y) && IsU32(z) && IsU32(width) && IsU16(depth)
    ensures !IsU32(x) ==> r == Failure(OverflowError(X))
    ensures IsU32(x) && !IsU32(y) ==> r == Failure(OverflowError(Y))
    ensures IsU32(x) && IsU32(y) && !IsU32(z) ==> r == Failure(OverflowError(Z))
    ensures IsU32(x) && IsU32(y) && IsU32(z) && !IsU32(width) ==> r == Failure(OverflowError(Width))
    ensures IsU32(x) && IsU32(y) && IsU32(z) && IsU32(width) && !IsU16(depth) ==> r == Failure(OverflowError(Depth))
    ensures r.Success? ==> r.value == LinearOffset(x, y, z, width, depth) % U32_MODULUS
    ensures r.Success? && LinearOffset(x, y, z, width, depth) <= U32_MAX ==>
      r.value == LinearOffset(x, y, z, width, depth)
  {
    var args := [Arg(X, x, U32_MAX), Arg(Y, y, U32_MAX), Arg(Z, z, U32_MAX),
                 Arg(Width, width, U32_MAX), Arg(Depth, depth, U16_MAX)];
    match FirstOverflow(args)
    case Some(p) =>
      assert !Fits(args[0]) ==> p == X;
      assert Fits(args[0]) && !Fits(args[1]) ==> p == Y;
      assert Fits(args[0]) && Fits(args[1]) && !Fits(args[2]) ==> p == Z;
      assert Fits(args[0]) && Fits(args[1]) && Fits(args[2]) && !Fits(args[3]) ==> p == Width;
      Failure(OverflowError(p))
    case None =>
      assert Fits(args[0]) && Fits(args[1]) && Fits(args[2]) && Fits(args[3]) && Fits(args[4]);
      var full := LinearOffset(x, y, z, width, depth);
      Success(full % U32_MODULUS)
  }

  /**
   * `to3d(offset, width, depth)`: offset and width are `unsigned int`, depth
   * is `unsigned short`; a zero depth or width is a zero divisor.
   */
  function To3d(offset: int, width: int, depth: int): (r: Result<Coord>)
    ensures r.Success? <==> IsU32(offset) && IsU32(width) && IsU16(depth) && width > 0 && depth > 0
    ensures !IsU32(offset) ==> r == Failure(OverflowError(Offset))
    ensures IsU32(offset) && !IsU32(width) ==> r == Failure(OverflowError(Width))
    ensures IsU32(offset) && IsU32(width) && !IsU16(depth) ==> r == Failure(OverflowError(Depth))
    ensures IsU32(offset) && IsU32(width) && IsU16(depth) && (width == 0 || depth == 0) ==>
      r == Failure(ZeroDivisionError)
    ensures r.Success? ==>
      0 <= r.value.x < width && 0 <= r.value.y && 0 <= r.value.z < depth &&
      LinearOffset(r.value.x, r.value.y, r.value.z, width, depth) == offset
  {
    var args := [Arg(Offset, offset, U32_MAX), Arg(Width, width, U32_MAX), Arg(Depth, depth, U16_MAX)];
    match FirstOverflow(args)
    case Some(p) =>
      assert !Fits(args[0]) ==> p == Offset;
      assert Fits(args[0]) && !Fits(args[1]) ==> p == Width;
      Failure(OverflowError(p))
    case None =>
      assert Fits(args[0]) && Fits(args[1]) && Fits(args[2]);
      if width == 0 || depth == 0 then Failure(ZeroDivisionError)
      else Success(Coords(offset, width, depth))
  }

  /** The decoded coordinate is the only in-range coordinate with that offset. */
  lemma {:induction false} CoordsUnique(x: nat, y: nat, z: nat, width: nat, depth: nat)
    requires x < width && z < depth
    ensures Coords(LinearOffset(x, y, z, width, depth), width, depth) == Coord(x, y, z)
  {
    Arith.LayoutDecode(y, x, z, width, depth);
    assert LinearOffset(x, y, z, width, depth) == (y * width + x) * depth + z;
  }

  /** The offset is the row-major layout of rows `width` pixels wide. */
  lemma LinearOffsetLayout(x: nat, y: nat, z: nat, width: nat, depth: nat)
    ensures LinearOffset(x, y, z, width, depth) == (y * width + x) * depth + z
  {
  }

  /** A cell of a `width x height` grid of `depth` channels lies inside its buffer. */
  lemma {:induction false} LinearOffsetInGrid(x: nat, y: nat, z: nat, width: nat, height: nat, depth: nat)
    requires x < width && y < height && z < depth
    ensures LinearOffset(x, y, z, width, depth) < width * height * depth
  {
    Arith.LayoutBound(y, x, z, height, width, depth);
    assert LinearOffset(x, y, z, width, depth) == (y * width + x) * depth + z;
    assert height * width * depth == width * height * depth;
  }

  /** An offset inside the buffer of a `width x height` grid decodes to a row below `height`. */
  lemma {:induction false} CoordsInGrid(offset: nat, width: nat, height: nat, depth: nat)
    requires offset < width * height * depth
    ensures width > 0 && height > 0 && depth > 0
    ensures Coords(offset, width, depth).y < height
  {
    var c := Coords(offset, width, depth);
    LinearOffsetLayout(c.x, c.y, c.z, width, depth);
    Arith.LayoutRowBound(c.y, c.x, c.z, height, width, depth);
  }

  /**
   * Round trip coordinate -> offset -> coordinate over a `width x height`
   * grid of `depth` channels whose buffer length fits in 32 bits.
   */
  lemma {:induction false} To3dOfTo1d(x: int, y: int, z: int, width: int, height: int, depth: int)
    requires 0 <= x < width && 0 <= y < height && 0 <= z < depth
    requires width <= U32_MAX && depth <= U16_MAX && width * height * depth <= U32_MODULUS
    ensures To1d(x, y, z, width, depth).Success?
    ensures To3d(To1d(x, y, z, width, depth).value, width, depth) == Success(Coord(x, y, z))
  {
    Arith.LayoutBound(y, x, z, height, width, depth);
    var n := LinearOffset(x, y, z, width, depth);
    assert n == (y * width + x) * depth + z;
    assert y <= U32_MAX by {
      Arith.MulMono(1, width, depth);
      Arith.MulMono(y, height, width * depth);
      assert width * height * depth == height * (width * depth);
    }
    assert n <= U32_MAX;
    CoordsUnique(x, y, z, width, depth);
  }

  /** Round trip offset -> coordinate -> offset, for every offset that fits in 32 bits. */
  lemma {:induction false} To1dOfTo3d(offset: int, width: int, depth: int)
    requires IsU32(offset) && 0 < width <= U32_MAX && 0 < depth <= U16_MAX
    ensures To3d(offset, width, depth).Success?
    ensures var c := To3d(offset, width, depth).value; To1d(c.x, c.y, c.z, width, depth) == Success(offset)
  {
    var c := Coords(offset, width, depth);
    assert To3d(offset, width, depth) == Success(c);
    assert c.y <= offset by {
      Arith.DivAtMost(offset, depth);
      Arith.DivAtMost(offset / depth, width);
    }
    assert IsU32(c.x) && IsU32(c.y) && IsU32(c.z);
    assert To1d(c.x, c.y, c.z, width, depth).Success?;
  }

  /** `to1d(5, 6, 3, 800, 3)` is `6*800*3 + 5*3 + 3`. */
  lemma To1dExample()
    ensures To1d(5, 6, 3, 800, 3) == Success(14418)
  {
  }

  /** `to3d(2800, 800, 3)` is `(133, 1, 1)`: 2800 is channel 1 of pixel 933 of an 800-wide grid. */
  lemma To3dExample()
    ensures To3d(2800, 800, 3) == Success(Coord(133, 1, 1))
  {
  }

  /**
   * All-maximum arguments are accepted and give a 32-bit value, although the
   * exact offset exceeds 2^32 - 1: the result wraps.
   */
  lemma {:induction false} To1dMaximalArguments()
    ensures LinearOffset(U32_MAX, U32_MAX, U32_MAX, U32_MAX, U16_MAX) > U32_MAX
    ensures To1d(U32_MAX, U32_MAX, U32_MAX, U32_MAX, U16_MAX).Success?
  {
  }

  /**
   * The wrap-around breaks the round trip once a grid outgrows 32 bits: when
   * `width * depth == 2^32` (say a 2^31-wide grid of depth 2), pixel (0, 1)
   * encodes to offset 0, which decodes to pixel (0, 0).
   */
  lemma {:induction false} To1dWrapLosesRow(width: int, depth: int)
    requires IsU32(width) && 0 < depth <= U16_MAX && width * depth == U32_MODULUS
    ensures To1d(0, 1, 0, width, depth) == Success(0)
    ensures To3d(0, width, depth) == Success(Coord(0, 0, 0))
  {
    assert LinearOffset(0, 1, 0, width, depth) == U32_MODULUS;
    Arith.DivModUnique(0, depth, 0, 0);
    Arith.DivModUnique(0, width, 0, 0);
    assert Coords(0, width, depth) == Coord(0, 0, 0);
  }
}
